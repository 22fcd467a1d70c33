/** `services/region_service.py`: the list of regions (`{code, name}`) in
    the settings file — listing with built-in defaults, adding a region
    under a fresh code, deleting every region of a code. */
module RegionService {
  import opened Values
  import opened Text
  import opened ConfigManager

  datatype RegionError =
    | EmptyCodeOrName
    | CodeExists(code: string)
    | CodeNotFound(code: string)

  function Region(code: string, name: string): Dict
  {
    map["code" := VStr(code), "name" := VStr(name)]
  }

  /** The regions listed when none are configured. */
  const DefaultRegions: seq<Dict> :=
    [Region("GB", "英国"), Region("SG", "新加坡"), Region("HK", "香港"), Region("MY", "马来西亚"), Region("PH", "菲律宾")]

  function CodeOf(r: Dict): Value
  {
    Get(r, "code", VNull)
  }

  /** `get_all_regions()`: the configured regions, or the defaults. */
  function AllRegions(stored: seq<Dict>): (r: seq<Dict>)
    ensures |r| > 0
    ensures |stored| > 0 ==> r == stored
    ensures |stored| == 0 ==>
      |r| == 5 && CodeOf(r[0]) == VStr("GB") && CodeOf(r[1]) == VStr("SG") && CodeOf(r[2]) == VStr("HK") &&
      CodeOf(r[3]) == VStr("MY") && CodeOf(r[4]) == VStr("PH")
  {
    if |stored| == 0 then DefaultRegions else stored
  }

  /** No two regions share a code. `add_region` keeps this. */
  predicate UniqueCodes(regions: seq<Dict>)
  {
    forall i, j :: 0 <= i < j < |regions| && CodeOf(regions[i]).VStr? ==> CodeOf(regions[i]) != CodeOf(regions[j])
  }

  /** The duplicate check of `add_region`. */
  method FindCode(regions: seq<Dict>, code: string) returns (found: bool)
    ensures found == KnownRegion(regions, code)
  {
    var i := 0;
    while i < |regions|
      invariant 0 <= i <= |regions|
      invariant forall j :: 0 <= j < i ==> CodeOf(regions[j]) != VStr(code)
    {
      if CodeOf(regions[i]) == VStr(code) {
        return true;
      }
      i := i + 1;
    }
    return false;
  }

  /** Adding a region whose code is not yet present keeps the codes unique,
      and afterwards the code is known. */
  lemma AddKeepsCodesUnique(regions: seq<Dict>, code: string, name: string)
    requires UniqueCodes(regions) && !KnownRegion(regions, code)
    ensures UniqueCodes(regions + [Region(code, name)])
    ensures KnownRegion(regions + [Region(code, name)], code)
  {
    var rs := regions + [Region(code, name)];
    assert CodeOf(rs[|regions|]) == VStr(code);
    forall i, j | 0 <= i < j < |rs| && CodeOf(rs[i]).VStr?
      ensures CodeOf(rs[i]) != CodeOf(rs[j])
    {
      assert rs[i] == regions[i];
      if j < |regions| {
        assert rs[j] == regions[j];
      }
    }
  }

  /** After deleting a code no region of that code is left, and every region
      of another code is still listed. */
  lemma DeleteRemovesCode(regions: seq<Dict>, code: string)
    ensures !KnownRegion(DropMatching(regions, "code", VStr(code)), code)
    ensures forall r :: r in regions && CodeOf(r) != VStr(code) ==> r in DropMatching(regions, "code", VStr(code))
  {
    var kept := DropMatching(regions, "code", VStr(code));
    DropMatchingSpec(regions, "code", VStr(code));
    forall i | 0 <= i < |kept|
      ensures CodeOf(kept[i]) != VStr(code)
    {
      assert kept[i] in kept;
      PyEqString(CodeOf(kept[i]), code);
    }
    forall r | r in regions && CodeOf(r) != VStr(code)
      ensures r in kept
    {
      PyEqString(CodeOf(r), code);
    }
  }

  /** `RegionService` over the settings file. */
  class RegionService {
    const settings: SettingStore

    constructor (settings: SettingStore)
      ensures this.settings == settings
    {
      this.settings := settings;
    }

    /** `get_all_regions()` */
    method GetAllRegions() returns (regions: seq<Dict>)
      ensures regions == AllRegions(settings.regions)
    {
      regions := settings.regions;
      if |regions| == 0 {
        regions := DefaultRegions;
      }
    }

    /** `add_region(code, name)`: the code is stripped and upper-cased, the
        name stripped; the duplicate check looks at the configured regions
        only, not at the defaults. */
    method AddRegion(code: string, name: string) returns (r: Result<Dict, RegionError>)
      modifies settings
      ensures var c := Upper(Strip(code)); var n := Strip(name);
        (c == "" || n == "" ==> r == Err(EmptyCodeOrName)) &&
        (c != "" && n != "" && KnownRegion(old(settings.regions), c) ==> r == Err(CodeExists(c))) &&
        (c != "" && n != "" && !KnownRegion(old(settings.regions), c) ==> r == Ok(Region(c, n)))
      ensures r.Err? ==> settings.regions == old(settings.regions)
      ensures r.Ok? ==> settings.regions == old(settings.regions) + [r.value]
      ensures settings.devices == old(settings.devices) && settings.vmCounters == old(settings.vmCounters)
      ensures settings.nameCounters == old(settings.nameCounters) && settings.paths == old(settings.paths)
    {
      var c := Upper(Strip(code));
      var n := Strip(name);
      if c == "" || n == "" {
        return Err(EmptyCodeOrName);
      }
      var exists_ := FindCode(settings.regions, c);
      if exists_ {
        return Err(CodeExists(c));
      }
      var region := Region(c, n);
      settings.regions := settings.regions + [region];
      return Ok(region);
    }

    /** `delete_region(code)`: the code is upper-cased (not stripped) and
        every region of that code is removed. */
    method DeleteRegion(code: string) returns (r: Result<(), RegionError>)
      modifies settings
      ensures r.Ok? <==> KnownRegion(old(settings.regions), Upper(code))
      ensures r.Err? ==> r == Err(CodeNotFound(Upper(code))) && settings.regions == old(settings.regions)
      ensures r.Ok? ==> settings.regions == DropMatching(old(settings.regions), "code", VStr(Upper(code)))
      ensures settings.devices == old(settings.devices) && settings.vmCounters == old(settings.vmCounters)
      ensures settings.nameCounters == old(settings.nameCounters) && settings.paths == old(settings.paths)
    {
      var c := Upper(code);
      var kept := DropMatching(settings.regions, "code", VStr(c));
      DropMatchingSpec(settings.regions, "code", VStr(c));
      forall i | 0 <= i < |settings.regions|
        ensures Matches(settings.regions[i], "code", VStr(c)) <==> CodeOf(settings.regions[i]) == VStr(c)
      {
        PyEqString(CodeOf(settings.regions[i]), c);
      }
      if |kept| == |settings.regions| {
        return Err(CodeNotFound(c));
      }
      settings.regions := kept;
      return Ok(());
    }
  }
}
