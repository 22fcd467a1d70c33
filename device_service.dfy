/** `services/device_service.py`: the device remarks (`{device_id, remark}`)
    in the settings file — saving a remark (replace or append) and deleting
    every remark of a device. Listing connected devices is
    `utils/adb_helper.py`'s parser. */
module DeviceService {
  import opened Values
  import opened ConfigManager

  datatype DeviceError =
    | EmptyDeviceId
    | NoSuchDevice(deviceId: Value)

  function DeviceEntry(deviceId: Value, remark: Value): Dict
  {
    map["device_id" := deviceId, "remark" := remark]
  }

  /** The first entry whose `device_id` equals `deviceId`, as the
      `for … break` search of `save_device_config` finds it. */
  function FirstDevice(devices: seq<Dict>, deviceId: Value): (r: Option<nat>)
    ensures r.Some? ==>
      r.value < |devices| && Matches(devices[r.value], "device_id", deviceId) &&
      forall j :: 0 <= j < r.value ==> !Matches(devices[j], "device_id", deviceId)
    ensures r.None? <==> forall j :: 0 <= j < |devices| ==> !Matches(devices[j], "device_id", deviceId)
  {
    if |devices| == 0 then None
    else if Matches(devices[0], "device_id", deviceId) then Some(0)
    else match FirstDevice(devices[1..], deviceId)
      case None =>
        assert forall j :: 1 <= j < |devices| ==> devices[j] == devices[1..][j - 1];
        None
      case Some(i) => Some(i + 1)
  }

  method FindDevice(devices: seq<Dict>, deviceId: Value) returns (found: Option<nat>)
    ensures found == FirstDevice(devices, deviceId)
  {
    var i := 0;
    while i < |devices|
      invariant 0 <= i <= |devices|
      invariant forall j :: 0 <= j < i ==> !Matches(devices[j], "device_id", deviceId)
    {
      if PyEq(Get(devices[i], "device_id", VNull), deviceId) {
        return Some(i);
      }
      i := i + 1;
    }
    return None;
  }

  /** The device list after `save_device_config`: the first entry of that
      device replaced in place, or the new entry appended. */
  function Upsert(devices: seq<Dict>, entry: Dict, deviceId: Value): seq<Dict>
  {
    match FirstDevice(devices, deviceId)
    case Some(k) => devices[k := entry]
    case None => devices + [entry]
  }

  /** The saved entry is in the list, the list grows by one exactly when the
      device had no entry, and every entry of another device stays where it
      was. */
  lemma UpsertSpec(devices: seq<Dict>, deviceId: Value, remark: Value)
    ensures var r := Upsert(devices, DeviceEntry(deviceId, remark), deviceId);
      DeviceEntry(deviceId, remark) in r &&
      |devices| <= |r| <= |devices| + 1 &&
      (|r| == |devices| + 1 <==> forall j :: 0 <= j < |devices| ==> !Matches(devices[j], "device_id", deviceId)) &&
      forall j :: 0 <= j < |devices| && !Matches(devices[j], "device_id", deviceId) ==> r[j] == devices[j]
  {
    var r := Upsert(devices, DeviceEntry(deviceId, remark), deviceId);
    match FirstDevice(devices, deviceId)
    case None => assert r[|devices|] == DeviceEntry(deviceId, remark);
    case Some(k) => assert r[k] == DeviceEntry(deviceId, remark);
  }

  /** The first match is the matching entry with no match before it. */
  lemma FirstDeviceAt(devices: seq<Dict>, deviceId: Value, k: nat)
    requires k < |devices| && Matches(devices[k], "device_id", deviceId)
    requires forall j :: 0 <= j < k ==> !Matches(devices[j], "device_id", deviceId)
    ensures FirstDevice(devices, deviceId) == Some(k)
  {
  }

  /** Saving the same remark twice is saving it once. */
  lemma UpsertIdempotent(devices: seq<Dict>, deviceId: Value, remark: Value)
    ensures var e := DeviceEntry(deviceId, remark);
      Upsert(Upsert(devices, e, deviceId), e, deviceId) == Upsert(devices, e, deviceId)
  {
    var e := DeviceEntry(deviceId, remark);
    PyEqReflexive(deviceId);
    assert Matches(e, "device_id", deviceId);
    var once := Upsert(devices, e, deviceId);
    match FirstDevice(devices, deviceId)
    case Some(k) =>
      assert forall j :: 0 <= j < k ==> once[j] == devices[j];
      FirstDeviceAt(once, deviceId, k);
    case None =>
      assert forall j :: 0 <= j < |devices| ==> once[j] == devices[j];
      FirstDeviceAt(once, deviceId, |devices|);
      assert once[|devices| := e] == once;
  }

  /** `DeviceService` over the settings file. */
  class DeviceService {
    const settings: SettingStore

    constructor (settings: SettingStore)
      ensures this.settings == settings
    {
      this.settings := settings;
    }

    /** `save_device_config(device_id, remark)` */
    method SaveDeviceConfig(deviceId: Value, remark: Value) returns (r: Result<Dict, DeviceError>)
      modifies settings
      ensures !Truthy(deviceId) ==> r == Err(EmptyDeviceId) && settings.devices == old(settings.devices)
      ensures Truthy(deviceId) ==>
        r == Ok(DeviceEntry(deviceId, remark)) &&
        settings.devices == Upsert(old(settings.devices), r.value, deviceId)
      ensures settings.regions == old(settings.regions) && settings.vmCounters == old(settings.vmCounters)
      ensures settings.nameCounters == old(settings.nameCounters) && settings.paths == old(settings.paths)
    {
      if !Truthy(deviceId) {
        return Err(EmptyDeviceId);
      }
      var existing := FindDevice(settings.devices, deviceId);
      var entry := DeviceEntry(deviceId, remark);
      if existing.Some? {
        settings.devices := settings.devices[existing.value := entry];
      } else {
        settings.devices := settings.devices + [entry];
      }
      return Ok(entry);
    }

    /** `delete_device_config(device_id)`: every entry of the device is
        removed; an error when there was none. */
    method DeleteDeviceConfig(deviceId: Value) returns (r: Result<(), DeviceError>)
      modifies settings
      ensures r.Ok? <==> exists j :: 0 <= j < |old(settings.devices)| && Matches(old(settings.devices)[j], "device_id", deviceId)
      ensures r.Err? ==> r == Err(NoSuchDevice(deviceId)) && settings.devices == old(settings.devices)
      ensures r.Ok? ==> settings.devices == DropMatching(old(settings.devices), "device_id", deviceId)
      ensures settings.regions == old(settings.regions) && settings.vmCounters == old(settings.vmCounters)
      ensures settings.nameCounters == old(settings.nameCounters) && settings.paths == old(settings.paths)
    {
      var kept := DropMatching(settings.devices, "device_id", deviceId);
      DropMatchingSpec(settings.devices, "device_id", deviceId);
      if |kept| == |settings.devices| {
        return Err(NoSuchDevice(deviceId));
      }
      settings.devices := kept;
      return Ok(());
    }
  }
}
