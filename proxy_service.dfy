/** `services/proxy_service.py`: the normal (non-transit) proxies of a
    device's configuration — listing, validation, building a record from a
    request, add / update / delete by index or by name, batch import with
    `prefix_NNN` name counters, and keeping `proxy-groups` in step with the
    proxy list. Pushing the configuration to devices is not modelled. */
module ProxyService {
  import opened Values
  import opened Text
  import opened YamlHelper
  import opened ConfigManager

  /** The `(False, message)` results of the service, one per message. */
  datatype ProxyError =
    | MissingDeviceId
    | NameTaken(name: string)
    | RegionRequired
    | UnknownRegion(code: string)
    | UsernameRequired
    | PasswordRequired
    | IndexOutOfRange
    | NameNotFound(name: string)
    | EmptyProxyLines
    | BadFormat
    | PrefixRequired
    | NothingParsed(failed: seq<string>)
    | AllNamesTaken
      /** An exception caught by the method's `except` clause, such as
          `.strip()` on a request field that is not a string. */
    | Raised

  /** `data.get(key, '')` where the caller goes on to call `.strip()`: a
      missing key reads as `''`; a value that is not a string raises. */
  function StrField(data: Dict, key: string): Option<string>
  {
    match Get(data, key, VStr(""))
    case VStr(s) => Some(s)
    case _ => None
  }

  /** `proxy.get('name')` */
  function NameOf(p: Dict): Value
  {
    Get(p, "name", VNull)
  }

  /** `seq[..i] + seq[i + 1..]`: the list after `pop(i)`. */
  function Without<T>(s: seq<T>, i: nat): seq<T>
    requires i < |s|
  {
    s[..i] + s[i + 1..]
  }

  // ---------------------------------------------------------------------
  // Names

  /** `_check_name_exists(config, name, exclude_index)`: some record other
      than the one at `exclude` is called `name`. */
  predicate NameInUse(ps: seq<Dict>, name: string, exclude: Option<int>)
  {
    exists i :: 0 <= i < |ps| && exclude != Some(i) && NameOf(ps[i]) == VStr(name)
  }

  /** The loop of `_check_name_exists`. */
  method CheckNameExists(ps: seq<Dict>, name: string, exclude: Option<int>) returns (b: bool)
    ensures b == NameInUse(ps, name, exclude)
  {
    var i := 0;
    while i < |ps|
      invariant 0 <= i <= |ps|
      invariant forall j :: 0 <= j < i && exclude != Some(j) ==> NameOf(ps[j]) != VStr(name)
    {
      if exclude != Some(i) && NameOf(ps[i]) == VStr(name) {
        return true;
      }
      i := i + 1;
    }
    return false;
  }

  /** No two records share a non-empty string name. The service keeps this:
      every name it writes is checked against the others first. */
  predicate UniqueNames(ps: seq<Dict>)
  {
    forall i, j ::
      (0 <= i < |ps| && 0 <= j < |ps| && i != j && NameOf(ps[i]).VStr? && NameOf(ps[i]) != VStr("")) ==>
        NameOf(ps[i]) != NameOf(ps[j])
  }

  /** A name that is empty or not in use can be given to the record at
      position `k` (or to a new record at the end, `k == |ps|`). */
  predicate FreeFor(ps: seq<Dict>, r: Dict, k: int)
  {
    NameOf(r).VStr? && (NameOf(r).s == "" || !NameInUse(ps, NameOf(r).s, Some(k)))
  }

  lemma AppendKeepsUnique(ps: seq<Dict>, r: Dict)
    requires UniqueNames(ps) && FreeFor(ps, r, |ps|)
    ensures UniqueNames(ps + [r])
  {
    var qs := ps + [r];
    forall i, j | 0 <= i < |qs| && 0 <= j < |qs| && i != j && NameOf(qs[i]).VStr? && NameOf(qs[i]) != VStr("")
      ensures NameOf(qs[i]) != NameOf(qs[j])
    {
      if i == |ps| {
        assert NameOf(qs[j]) != NameOf(r) by {
          assert qs[j] == ps[j];
        }
      } else if j == |ps| {
        assert qs[i] == ps[i];
      }
    }
  }

  lemma ReplaceKeepsUnique(ps: seq<Dict>, k: nat, r: Dict)
    requires k < |ps| && UniqueNames(ps) && FreeFor(ps, r, k)
    ensures UniqueNames(ps[k := r])
  {
    var qs := ps[k := r];
    forall i, j | 0 <= i < |qs| && 0 <= j < |qs| && i != j && NameOf(qs[i]).VStr? && NameOf(qs[i]) != VStr("")
      ensures NameOf(qs[i]) != NameOf(qs[j])
    {
      if i == k {
        assert qs[j] == ps[j];
      } else if j == k {
        assert qs[i] == ps[i];
      }
    }
  }

  lemma RemoveKeepsUnique(ps: seq<Dict>, k: nat)
    requires k < |ps| && UniqueNames(ps)
    ensures UniqueNames(Without(ps, k))
  {
    var qs := Without(ps, k);
    forall i, j | 0 <= i < |qs| && 0 <= j < |qs| && i != j && NameOf(qs[i]).VStr? && NameOf(qs[i]) != VStr("")
      ensures NameOf(qs[i]) != NameOf(qs[j])
    {
      var i' := if i < k then i else i + 1;
      var j' := if j < k then j else j + 1;
      assert qs[i] == ps[i'] && qs[j] == ps[j'];
    }
  }

  /** The first record called `name`, as the `for … break` searches of
      `update_proxy_by_name` and `delete_proxy_by_name` find it. */
  function FirstNamed(ps: seq<Dict>, name: string): (r: Option<nat>)
    ensures r.Some? ==>
      r.value < |ps| && NameOf(ps[r.value]) == VStr(name) &&
      forall j :: 0 <= j < r.value ==> NameOf(ps[j]) != VStr(name)
    ensures r.None? <==> !NameInUse(ps, name, None)
  {
    if |ps| == 0 then None
    else if NameOf(ps[0]) == VStr(name) then Some(0)
    else match FirstNamed(ps[1..], name)
      case None =>
        assert forall i :: 1 <= i < |ps| ==> ps[i] == ps[1..][i - 1];
        None
      case Some(i) => Some(i + 1)
  }

  method FindByName(ps: seq<Dict>, name: string) returns (found: Option<nat>)
    ensures found == FirstNamed(ps, name)
  {
    var i := 0;
    while i < |ps|
      invariant 0 <= i <= |ps|
      invariant forall j :: 0 <= j < i ==> NameOf(ps[j]) != VStr(name)
    {
      if NameOf(ps[i]) == VStr(name) {
        return Some(i);
      }
      i := i + 1;
    }
    return None;
  }

  /** After deleting the first record called `name` from a list with unique
      names, no record of that name is left. */
  lemma DeleteByNameRemovesName(ps: seq<Dict>, name: string)
    requires UniqueNames(ps) && name != "" && FirstNamed(ps, name).Some?
    ensures !NameInUse(Without(ps, FirstNamed(ps, name).value), name, None)
    ensures UniqueNames(Without(ps, FirstNamed(ps, name).value))
  {
    var k := FirstNamed(ps, name).value;
    var qs := Without(ps, k);
    forall i | 0 <= i < |qs|
      ensures NameOf(qs[i]) != VStr(name)
    {
      var i' := if i < k then i else i + 1;
      assert qs[i] == ps[i'];
    }
    RemoveKeepsUnique(ps, k);
  }

  // ---------------------------------------------------------------------
  // Validation and record building

  /** The request fields `_validate_proxy_data` and `_build_proxy_config`
      call `.strip()` on are strings (or missing). */
  predicate WellTyped(data: Dict)
  {
    StrField(data, "name").Some? && StrField(data, "region").Some? &&
    StrField(data, "username").Some? && StrField(data, "password").Some?
  }

  /** What an acceptable add or update request is, regardless of the order
      of the checks: a free (or empty) name, a known region, and a
      non-blank username and password. */
  predicate Acceptable(data: Dict, ps: seq<Dict>, regions: seq<Dict>, exclude: Option<int>)
  {
    WellTyped(data) &&
    var name := Strip(StrField(data, "name").value);
    var region := Upper(Strip(StrField(data, "region").value));
    (name == "" || !NameInUse(ps, name, exclude)) &&
    region != "" && KnownRegion(regions, region) &&
    Strip(StrField(data, "username").value) != "" &&
    Strip(StrField(data, "password").value) != ""
  }

  /** `_validate_proxy_data(data, config, exclude_index)`: the first failed
      check, in the source's order, or `None`. */
  function ValidateProxyData(data: Dict, ps: seq<Dict>, regions: seq<Dict>, exclude: Option<int>): (r: Option<ProxyError>)
    ensures r.None? <==> Acceptable(data, ps, regions, exclude)
    ensures r.Some? && r.value.NameTaken? ==> r.value.name != "" && NameInUse(ps, r.value.name, exclude)
    ensures r.Some? && r.value.UnknownRegion? ==> !KnownRegion(regions, r.value.code)
  {
    match StrField(data, "name")
    case None => Some(Raised)
    case Some(rawName) =>
      var name := Strip(rawName);
      if name != "" && NameInUse(ps, name, exclude) then Some(NameTaken(name))
      else match StrField(data, "region")
        case None => Some(Raised)
        case Some(rawRegion) =>
          var region := Upper(Strip(rawRegion));
          if region == "" then Some(RegionRequired)
          else if !KnownRegion(regions, region) then Some(UnknownRegion(region))
          else match StrField(data, "username")
            case None => Some(Raised)
            case Some(user) =>
              if Strip(user) == "" then Some(UsernameRequired)
              else match StrField(data, "password")
                case None => Some(Raised)
                case Some(pass) =>
                  if Strip(pass) == "" then Some(PasswordRequired) else None
  }

  /** `int(port) if port else ''`, keeping the value when `int()` raises. */
  function ConvertPort(v: Value): Value
  {
    if !Truthy(v) then VStr("")
    else match v
      case VInt(_) => v
      case VBool(_) => VInt(1)
      case VStr(s) => (match ParseInt(s) case Some(n) => VInt(n) case None => v)
      case _ => v
  }

  /** A port given as a number, or as its decimal text, is stored as that
      number; a missing or empty port is stored as `''`. */
  lemma ConvertPortSpec(n: nat)
    ensures ConvertPort(VStr(Decimal(n))) == VInt(n)
    ensures n != 0 ==> ConvertPort(VInt(n)) == VInt(n)
    ensures ConvertPort(VStr("")) == VStr("") && ConvertPort(VNull) == VStr("")
  {
    DecimalRoundTrip(n);
    DecimalDigits(n);
  }

  /** The keys `_build_proxy_config` always writes. */
  const BuiltKeys: set<string> :=
    {"name", "type", "server", "port", "region", "username", "password", "skip-cert-verify", "udp", "IsBak"}

  /** The seven keys `_build_proxy_config` sets from the request first. */
  function BaseRecord(data: Dict): (r: Dict)
    requires WellTyped(data)
    ensures r.Keys == {"name", "type", "server", "port", "region", "username", "password"}
    ensures r["name"] == VStr(Strip(StrField(data, "name").value))
    ensures r["region"] == VStr(Upper(Strip(StrField(data, "region").value)))
  {
    map[
      "name" := VStr(Strip(StrField(data, "name").value)),
      "type" := Get(data, "type", VStr("socks5")),
      "server" := Get(data, "server", VStr("")),
      "port" := ConvertPort(Get(data, "port", VStr(""))),
      "region" := VStr(Upper(Strip(StrField(data, "region").value))),
      "username" := VStr(Strip(StrField(data, "username").value)),
      "password" := VStr(Strip(StrField(data, "password").value))]
  }

  /** `sni` is copied when the request has it. */
  function WithSni(m: Dict, data: Dict): (r: Dict)
    ensures r.Keys == m.Keys + (if "sni" in data then {"sni"} else {})
    ensures forall k :: k in m && k != "sni" ==> r[k] == m[k]
    ensures "sni" in data ==> r["sni"] == data["sni"]
  {
    if "sni" in data then m["sni" := data["sni"]] else m
  }

  /** `dialer-proxy`: a request that names it decides it (an empty value
      leaves it out), otherwise the old record's is kept. */
  function WithDialer(m: Dict, data: Dict, prior: Option<Dict>): (r: Dict)
    requires "dialer-proxy" !in m
    ensures r.Keys <= m.Keys + {"dialer-proxy"}
    ensures forall k :: k in m ==> k in r && r[k] == m[k]
    ensures "dialer-proxy" in data ==>
      ("dialer-proxy" in r <==> Truthy(data["dialer-proxy"])) &&
      ("dialer-proxy" in r ==> r["dialer-proxy"] == data["dialer-proxy"])
    ensures "dialer-proxy" !in data ==>
      ("dialer-proxy" in r <==> prior.Some? && "dialer-proxy" in prior.value) &&
      ("dialer-proxy" in r ==> r["dialer-proxy"] == prior.value["dialer-proxy"])
  {
    if "dialer-proxy" in data then
      (if Truthy(data["dialer-proxy"]) then m["dialer-proxy" := data["dialer-proxy"]] else m)
    else if prior.Some? && "dialer-proxy" in prior.value then m["dialer-proxy" := prior.value["dialer-proxy"]]
    else m
  }

  /** `bool(data['is_bak'])` when given, else the old record's `IsBak`,
      else `False`. */
  function IsBakValue(data: Dict, prior: Option<Dict>): Value
  {
    if "is_bak" in data then VBool(Truthy(data["is_bak"]))
    else if prior.Some? && "IsBak" in prior.value then prior.value["IsBak"]
    else VBool(false)
  }

  /** `_build_proxy_config(data, old_proxy)`. */
  function BuildProxyConfig(data: Dict, prior: Option<Dict>): (r: Dict)
    requires WellTyped(data)
    ensures "name" in r && r["name"] == VStr(Strip(StrField(data, "name").value))
  {
    var withSni := WithSni(BaseRecord(data), data);
    var withFlags := withSni["skip-cert-verify" := Get(data, "skip-cert-verify", VBool(true))]
                            ["udp" := Get(data, "udp", VBool(true))];
    WithDialer(withFlags, data, prior)["IsBak" := IsBakValue(data, prior)]
  }

  /** The built record has the fixed keys, and besides them at most `sni`
      and `dialer-proxy`. */
  lemma BuildKeySet(data: Dict, prior: Option<Dict>)
    requires WellTyped(data)
    ensures BuiltKeys <= BuildProxyConfig(data, prior).Keys <= BuiltKeys + {"sni", "dialer-proxy"}
  {
  }

  /** A key outside the fixed ones, `sni` and `dialer-proxy` is never set. */
  lemma BuildNoOtherKey(data: Dict, prior: Option<Dict>, k: string)
    requires WellTyped(data)
    requires k != "name" && k != "type" && k != "server" && k != "port" && k != "region" && k != "username"
    requires k != "password" && k != "skip-cert-verify" && k != "udp" && k != "IsBak" && k != "sni" && k != "dialer-proxy"
    ensures k !in BuildProxyConfig(data, prior)
  {
    var base := BaseRecord(data);
    assert k !in base;
    var withSni := WithSni(base, data);
    assert k !in withSni;
    var withFlags := withSni["skip-cert-verify" := Get(data, "skip-cert-verify", VBool(true))]
                            ["udp" := Get(data, "udp", VBool(true))];
    assert k !in withFlags;
    assert k !in WithDialer(withFlags, data, prior);
  }

  /** A built record never carries `IsBase`, so it is always a normal proxy:
      updating a record through the proxy service makes it a normal one. */
  lemma BuildIsNormal(data: Dict, prior: Option<Dict>)
    requires WellTyped(data)
    ensures !IsTransitProxy(BuildProxyConfig(data, prior))
  {
    var r := BuildProxyConfig(data, prior);
    assert "IsBase" !in r by {
      BuildNoOtherKey(data, prior, "IsBase");
    }
    assert Get(r, "IsBase", VBool(false)) == VBool(false);
  }

  /** The built record has the fixed keys, plus `sni` exactly when the
      request has one and `dialer-proxy` only as below; its name is the
      stripped request name and its region the stripped, upper-cased code. */
  lemma BuildKeys(data: Dict, prior: Option<Dict>)
    requires WellTyped(data)
    ensures var r := BuildProxyConfig(data, prior);
      ("sni" in r <==> "sni" in data) && ("sni" in r ==> r["sni"] == data["sni"]) &&
      IsStripped(r["name"].s) &&
      r["region"] == VStr(Upper(Strip(StrField(data, "region").value)))
  {
    StripSpec(StrField(data, "name").value);
    BuildKeepsBase(data, prior, "region");
    BuildSni(data, prior);
  }

  /** The keys set after the first seven keep their values from the
      request. */
  lemma BuildKeepsBase(data: Dict, prior: Option<Dict>, k: string)
    requires WellTyped(data) && k in BaseRecord(data)
    requires k !in {"sni", "skip-cert-verify", "udp", "dialer-proxy", "IsBak"}
    ensures BuildProxyConfig(data, prior)[k] == BaseRecord(data)[k]
  {
  }

  lemma BuildSni(data: Dict, prior: Option<Dict>)
    requires WellTyped(data)
    ensures var r := BuildProxyConfig(data, prior);
      ("sni" in r <==> "sni" in data) && ("sni" in r ==> r["sni"] == data["sni"])
  {
    assert "sni" !in BaseRecord(data);
  }

  /** `skip-cert-verify` and `udp` are taken from the request and default
      to `True`. */
  lemma BuildFlags(data: Dict, prior: Option<Dict>)
    requires WellTyped(data)
    ensures BuildProxyConfig(data, prior)["skip-cert-verify"] == Get(data, "skip-cert-verify", VBool(true))
    ensures BuildProxyConfig(data, prior)["udp"] == Get(data, "udp", VBool(true))
  {
  }

  /** A request that names `dialer-proxy` decides it — an empty value drops
      it; a request that omits the key keeps the old record's. */
  lemma BuildDialer(data: Dict, prior: Option<Dict>)
    requires WellTyped(data)
    ensures var r := BuildProxyConfig(data, prior);
      ("dialer-proxy" in data ==>
        ("dialer-proxy" in r <==> Truthy(data["dialer-proxy"])) &&
        ("dialer-proxy" in r ==> r["dialer-proxy"] == data["dialer-proxy"])) &&
      ("dialer-proxy" !in data ==>
        ("dialer-proxy" in r <==> prior.Some? && "dialer-proxy" in prior.value) &&
        ("dialer-proxy" in r ==> r["dialer-proxy"] == prior.value["dialer-proxy"]))
  {
  }

  /** `IsBak` is `bool(data['is_bak'])` when given, else the old record's,
      else `False`. */
  lemma BuildIsBak(data: Dict, prior: Option<Dict>)
    requires WellTyped(data)
    ensures BuildProxyConfig(data, prior)["IsBak"] ==
      if "is_bak" in data then VBool(Truthy(data["is_bak"]))
      else if prior.Some? && "IsBak" in prior.value then prior.value["IsBak"]
      else VBool(false)
  {
  }

  /** A record built from an accepted request carries a name that is empty
      or free at its position, so adding or updating it keeps names unique. */
  lemma AcceptedNameIsFree(data: Dict, ps: seq<Dict>, regions: seq<Dict>, k: nat, prior: Option<Dict>)
    requires k <= |ps| && Acceptable(data, ps, regions, Some(k))
    ensures FreeFor(ps, BuildProxyConfig(data, prior), k)
  {
  }

  lemma AddKeepsNamesUnique(data: Dict, ps: seq<Dict>, regions: seq<Dict>)
    requires UniqueNames(ps) && ValidateProxyData(data, ps, regions, None).None?
    ensures UniqueNames(ps + [BuildProxyConfig(data, None)])
  {
    var r := BuildProxyConfig(data, None);
    assert forall n :: NameInUse(ps, n, Some(|ps|)) ==> NameInUse(ps, n, None);
    AppendKeepsUnique(ps, r);
  }

  lemma UpdateKeepsNamesUnique(data: Dict, ps: seq<Dict>, regions: seq<Dict>, k: nat)
    requires k < |ps| && UniqueNames(ps) && ValidateProxyData(data, ps, regions, Some(k)).None?
    ensures UniqueNames(ps[k := BuildProxyConfig(data, Some(ps[k]))])
  {
    AcceptedNameIsFree(data, ps, regions, k, Some(ps[k]));
    ReplaceKeepsUnique(ps, k, BuildProxyConfig(data, Some(ps[k])));
  }

  // ---------------------------------------------------------------------
  // Filtered views

  /** `get_all_proxies` (`transit == false`) and `get_all_transits`
      (`transit == true`): the records of one kind, each tagged with its
      position in the full list under `_index`. */
  function KindView(ps: seq<Dict>, transit: bool): seq<Dict>
  {
    if |ps| == 0 then []
    else
      var last := ps[|ps| - 1];
      var tagged := if IsTransitProxy(last) == transit then [last["_index" := VInt(|ps| - 1)]] else [];
      KindView(ps[..|ps| - 1], transit) + tagged
  }

  /** The view lists exactly the records of its kind, in order, and each
      one's `_index` is its position in the full list, so the `_index`
      values are increasing and point at records of that kind. */
  lemma {:induction false} KindViewSpec(ps: seq<Dict>, transit: bool)
    ensures |KindView(ps, transit)| == |Positions(ps, transit)| == |OfKind(ps, transit)|
    ensures forall j :: 0 <= j < |KindView(ps, transit)| ==>
      KindView(ps, transit)[j] == OfKind(ps, transit)[j]["_index" := VInt(Positions(ps, transit)[j])]
    ensures forall j :: 0 <= j < |KindView(ps, transit)| ==>
      Positions(ps, transit)[j] < |ps| && ps[Positions(ps, transit)[j]] == OfKind(ps, transit)[j] &&
      IsTransitProxy(ps[Positions(ps, transit)[j]]) == transit
    ensures forall j, k :: 0 <= j < k < |KindView(ps, transit)| ==>
      Positions(ps, transit)[j] < Positions(ps, transit)[k]
    decreases |ps|
  {
    PositionsSpec(ps, transit);
    if |ps| > 0 {
      KindViewSpec(ps[..|ps| - 1], transit);
    }
  }

  /** The loop of `get_all_proxies` / `get_all_transits`. */
  method GetKindView(ps: seq<Dict>, transit: bool) returns (view: seq<Dict>)
    ensures view == KindView(ps, transit)
  {
    view := [];
    var i := 0;
    while i < |ps|
      invariant 0 <= i <= |ps|
      invariant view == KindView(ps[..i], transit)
    {
      assert ps[..i + 1][..i] == ps[..i];
      if IsTransitProxy(ps[i]) == transit {
        view := view + [ps[i]["_index" := VInt(i)]];
      }
      i := i + 1;
    }
    assert ps[..i] == ps;
  }

  /** Removing the `k`-th record of one kind leaves the other kind's list as
      it was and removes exactly the `k`-th entry from its own kind's list. */
  lemma {:induction false} RemoveOfKind(ps: seq<Dict>, transit: bool, k: nat)
    requires k < |Positions(ps, transit)|
    ensures Positions(ps, transit)[k] < |ps|
    ensures |Positions(ps, transit)| == |OfKind(ps, transit)|
    ensures OfKind(Without(ps, Positions(ps, transit)[k]), !transit) == OfKind(ps, !transit)
    ensures OfKind(Without(ps, Positions(ps, transit)[k]), transit) == Without(OfKind(ps, transit), k)
    decreases |ps|
  {
    PositionsSpec(ps, transit);
    var n := |ps|;
    var init := ps[..n - 1];
    var last := ps[n - 1];
    var i := Positions(ps, transit)[k];
    PositionsSpec(init, transit);
    if i == n - 1 {
      assert IsTransitProxy(last) == transit;
      assert Positions(ps, transit) == Positions(init, transit) + [n - 1];
      assert k == |Positions(init, transit)|;
      assert Without(ps, i) == init;
      assert OfKind(ps, transit) == OfKind(init, transit) + [last];
      assert Without(OfKind(ps, transit), k) == OfKind(init, transit);
    } else {
      assert k < |Positions(init, transit)| && Positions(init, transit)[k] == i by {
        if IsTransitProxy(last) == transit {
          assert Positions(ps, transit) == Positions(init, transit) + [n - 1];
        } else {
          assert Positions(ps, transit) == Positions(init, transit);
        }
      }
      RemoveOfKind(init, transit, k);
      RemoveBeforeLast(ps, i, transit);
    }
  }

  /** One step of `RemoveOfKind`: removing a record before the last one
      commutes with the last record's contribution to both filters. */
  lemma RemoveBeforeLast(ps: seq<Dict>, i: nat, transit: bool)
    requires i < |ps| - 1
    requires var init := ps[..|ps| - 1];
      OfKind(Without(init, i), !transit) == OfKind(init, !transit) &&
      |OfKind(init, transit)| > 0 &&
      exists k :: 0 <= k < |OfKind(init, transit)| && OfKind(Without(init, i), transit) == Without(OfKind(init, transit), k)
    ensures OfKind(Without(ps, i), !transit) == OfKind(ps, !transit)
    ensures forall k ::
      (0 <= k < |OfKind(ps[..|ps| - 1], transit)| &&
       OfKind(Without(ps[..|ps| - 1], i), transit) == Without(OfKind(ps[..|ps| - 1], transit), k)) ==>
        OfKind(Without(ps, i), transit) == Without(OfKind(ps, transit), k)
  {
    var init := ps[..|ps| - 1];
    var last := ps[|ps| - 1];
    var rest := Without(init, i);
    assert Without(ps, i) == rest + [last];
    assert init + [last] == ps;
    OfKindSnoc(rest, last, transit);
    OfKindSnoc(rest, last, !transit);
    OfKindSnoc(init, last, transit);
    OfKindSnoc(init, last, !transit);
    forall k | 0 <= k < |OfKind(init, transit)| &&
      OfKind(rest, transit) == Without(OfKind(init, transit), k)
      ensures OfKind(Without(ps, i), transit) == Without(OfKind(ps, transit), k)
    {
      var tail := if IsTransitProxy(last) == transit then [last] else [];
      WithoutSnoc(OfKind(init, transit), k, tail);
    }
  }

  lemma WithoutSnoc<T>(xs: seq<T>, k: nat, tail: seq<T>)
    requires k < |xs|
    ensures Without(xs + tail, k) == Without(xs, k) + tail
  {
  }

  lemma OfKindSnoc(ps: seq<Dict>, p: Dict, transit: bool)
    ensures OfKind(ps + [p], transit) == OfKind(ps, transit) + (if IsTransitProxy(p) == transit then [p] else [])
  {
    assert (ps + [p])[..|ps|] == ps;
  }

  // ---------------------------------------------------------------------
  // proxy-groups

  /** `proxy_names`: the `name` of every record that has one, in order. */
  function ProxyNames(ps: seq<Dict>): seq<Value>
  {
    if |ps| == 0 then []
    else
      var last := ps[|ps| - 1];
      ProxyNames(ps[..|ps| - 1]) + (if "name" in last then [last["name"]] else [])
  }

  /** A value is listed exactly when some record has it as its name. */
  lemma {:induction false} ProxyNamesMembers(ps: seq<Dict>)
    ensures forall v :: v in ProxyNames(ps) <==> exists i :: 0 <= i < |ps| && "name" in ps[i] && ps[i]["name"] == v
    decreases |ps|
  {
    if |ps| > 0 {
      var init := ps[..|ps| - 1];
      ProxyNamesMembers(init);
      forall v | (exists i :: 0 <= i < |ps| && "name" in ps[i] && ps[i]["name"] == v)
        ensures v in ProxyNames(ps)
      {
        var i :| 0 <= i < |ps| && "name" in ps[i] && ps[i]["name"] == v;
        if i < |ps| - 1 {
          assert init[i] == ps[i];
        }
      }
      forall v | v in ProxyNames(init)
        ensures exists i :: 0 <= i < |ps| && "name" in ps[i] && ps[i]["name"] == v
      {
        var i :| 0 <= i < |init| && "name" in init[i] && init[i]["name"] == v;
        assert ps[i] == init[i];
      }
    }
  }

  /** A group `_update_proxy_groups` rewrites: a mapping of `type` `select`
      whose `name` is not `PROXY`. */
  predicate IsSyncedGroup(g: Value)
  {
    g.VDict? && Get(g.fields, "type", VStr("")) == VStr("select") &&
    Get(g.fields, "name", VStr("")) != VStr("PROXY")
  }

  function SyncGroup(g: Value, names: seq<Value>): Value
  {
    if IsSyncedGroup(g) then VDict(g.fields["proxies" := VList(names)]) else g
  }

  /** `proxy-groups` after `_update_proxy_groups`; an absent key stays absent. */
  function SyncedGroups(groups: Option<seq<Value>>, names: seq<Value>): Option<seq<Value>>
  {
    match groups
    case None => None
    case Some(gs) => Some(seq(|gs|, i requires 0 <= i < |gs| => SyncGroup(gs[i], names)))
  }

  /** After the update every `select` group other than `PROXY` lists exactly
      the current proxy names and keeps its other keys; every other group is
      untouched. */
  lemma SyncedGroupsSpec(groups: Option<seq<Value>>, names: seq<Value>)
    ensures SyncedGroups(groups, names).Some? <==> groups.Some?
    ensures groups.Some? ==> |SyncedGroups(groups, names).value| == |groups.value|
    ensures groups.Some? ==> forall i :: 0 <= i < |groups.value| ==>
      var g := groups.value[i];
      var h := SyncedGroups(groups, names).value[i];
      (IsSyncedGroup(g) ==>
        IsSyncedGroup(h) && h.fields["proxies"] == VList(names) &&
        h.fields.Keys == g.fields.Keys + {"proxies"} &&
        forall k :: k in g.fields && k != "proxies" ==> h.fields[k] == g.fields[k]) &&
      (!IsSyncedGroup(g) ==> h == g)
  {
  }

  /** Only the last update counts: syncing twice is syncing once with the
      later names. In particular the update is idempotent. */
  lemma SyncLastWins(groups: Option<seq<Value>>, a: seq<Value>, b: seq<Value>)
    ensures SyncedGroups(SyncedGroups(groups, a), b) == SyncedGroups(groups, b)
  {
    if groups.Some? {
      var gs := groups.value;
      var once := SyncedGroups(groups, a).value;
      forall i | 0 <= i < |gs|
        ensures SyncGroup(once[i], b) == SyncGroup(gs[i], b)
      {
        if IsSyncedGroup(gs[i]) {
          assert once[i].fields == gs[i].fields["proxies" := VList(a)];
          assert once[i].fields["proxies" := VList(b)] == gs[i].fields["proxies" := VList(b)];
        }
      }
      assert SyncedGroups(SyncedGroups(groups, a), b).value == SyncedGroups(groups, b).value;
    }
  }

  /** `_update_proxy_groups(config)`: the two loops of the source, the first
      collecting the names, the second rewriting the groups. */
  method UpdateProxyGroups(doc: Document)
    modifies doc
    ensures doc.proxies == old(doc.proxies)
    ensures doc.groups == SyncedGroups(old(doc.groups), ProxyNames(doc.proxies))
  {
    if doc.groups.None? {
      return;
    }
    var ps := doc.proxies;
    var names: seq<Value> := [];
    var i := 0;
    while i < |ps|
      invariant 0 <= i <= |ps|
      invariant names == ProxyNames(ps[..i])
    {
      assert ps[..i + 1][..i] == ps[..i];
      if "name" in ps[i] {
        names := names + [ps[i]["name"]];
      }
      i := i + 1;
    }
    assert ps[..i] == ps;
    var gs := doc.groups.value;
    var out: seq<Value> := [];
    var j := 0;
    while j < |gs|
      invariant 0 <= j <= |gs|
      invariant |out| == j
      invariant forall m :: 0 <= m < j ==> out[m] == SyncGroup(gs[m], names)
    {
      var g := gs[j];
      if g.VDict? && Get(g.fields, "type", VStr("")) == VStr("select") && Get(g.fields, "name", VStr("")) != VStr("PROXY") {
        g := VDict(g.fields["proxies" := VList(names)]);
      }
      out := out + [g];
      j := j + 1;
    }
    assert out == SyncedGroups(doc.groups, names).value;
    doc.groups := Some(out);
  }

  /** The members of one group with every `== old_name` replaced. */
  function RenameMembers(xs: seq<Value>, oldName: Value, newName: Value): seq<Value>
  {
    seq(|xs|, i requires 0 <= i < |xs| => if PyEq(xs[i], oldName) then newName else xs[i])
  }

  /** Only mapping groups whose `proxies` is a list are touched. */
  function RenameGroup(g: Value, oldName: Value, newName: Value): Value
  {
    if g.VDict? && "proxies" in g.fields && g.fields["proxies"].VList? then
      VDict(g.fields["proxies" := VList(RenameMembers(g.fields["proxies"].items, oldName, newName))])
    else g
  }

  /** `proxy-groups` after `_update_proxy_name_in_groups`. */
  function RenamedGroups(groups: Option<seq<Value>>, oldName: Value, newName: Value): Option<seq<Value>>
  {
    match groups
    case None => None
    case Some(gs) => Some(seq(|gs|, i requires 0 <= i < |gs| => RenameGroup(gs[i], oldName, newName)))
  }

  /** Renaming replaces every occurrence of the old name and nothing else;
      when the new name differs, no occurrence of the old one is left. */
  lemma RenameSpec(xs: seq<Value>, oldName: Value, newName: Value)
    ensures |RenameMembers(xs, oldName, newName)| == |xs|
    ensures forall i :: 0 <= i < |xs| && !PyEq(xs[i], oldName) ==> RenameMembers(xs, oldName, newName)[i] == xs[i]
    ensures forall i :: 0 <= i < |xs| && PyEq(xs[i], oldName) ==> RenameMembers(xs, oldName, newName)[i] == newName
    ensures !PyEq(newName, oldName) ==>
      forall i :: 0 <= i < |xs| ==> !PyEq(RenameMembers(xs, oldName, newName)[i], oldName)
  {
  }

  /** `_update_proxy_name_in_groups(config, old_name, new_name)`. */
  method UpdateProxyNameInGroups(doc: Document, oldName: Value, newName: Value)
    modifies doc
    ensures doc.proxies == old(doc.proxies)
    ensures doc.groups == RenamedGroups(old(doc.groups), oldName, newName)
  {
    if doc.groups.None? {
      return;
    }
    var gs := doc.groups.value;
    var out: seq<Value> := [];
    var j := 0;
    while j < |gs|
      invariant 0 <= j <= |gs|
      invariant |out| == j
      invariant forall m :: 0 <= m < j ==> out[m] == RenameGroup(gs[m], oldName, newName)
      modifies {}
    {
      var g := gs[j];
      if g.VDict? && "proxies" in g.fields && g.fields["proxies"].VList? {
        var members := RenameInList(g.fields["proxies"].items, oldName, newName);
        g := VDict(g.fields["proxies" := VList(members)]);
      }
      out := out + [g];
      j := j + 1;
    }
    assert out == RenamedGroups(Some(gs), oldName, newName).value;
    doc.groups := Some(out);
  }

  /** The inner loop of `_update_proxy_name_in_groups`: each member equal
      to the old name is overwritten in place. */
  method RenameInList(xs: seq<Value>, oldName: Value, newName: Value) returns (members: seq<Value>)
    ensures members == RenameMembers(xs, oldName, newName)
  {
    members := xs;
    var k := 0;
    while k < |members|
      invariant 0 <= k <= |members| == |xs|
      invariant forall m :: 0 <= m < k ==> members[m] == RenameMembers(xs, oldName, newName)[m]
      invariant forall m :: k <= m < |members| ==> members[m] == xs[m]
    {
      if PyEq(members[k], oldName) {
        members := members[k := newName];
      }
      k := k + 1;
    }
  }

  /** What `update_proxy` and `update_proxy_by_name` write at position `k`
      once the request passes `_validate_proxy_data` (with `k` excluded
      from the name check), or the first check it fails. */
  function Revised(data: Dict, ps: seq<Dict>, regions: seq<Dict>, k: nat): Result<Dict, ProxyError>
    requires k < |ps|
  {
    match ValidateProxyData(data, ps, regions, Some(k))
    case Some(e) => Err(e)
    case None => Ok(BuildProxyConfig(data, Some(ps[k])))
  }

  /** The tail of `update_proxy_by_name`: a changed name is renamed in the
      groups, then the groups are synchronised with the proxies. */
  method RenameThenSync(doc: Document, oldName: Value, newName: Value)
    requires oldName.VStr?
    modifies doc
    ensures doc.proxies == old(doc.proxies)
    ensures doc.groups == SyncedGroups(
      if newName != oldName then RenamedGroups(old(doc.groups), oldName, newName) else old(doc.groups),
      ProxyNames(doc.proxies))
  {
    PyEqString(newName, oldName.s);
    if !PyEq(oldName, newName) {
      UpdateProxyNameInGroups(doc, oldName, newName);
    }
    UpdateProxyGroups(doc);
  }

  // ---------------------------------------------------------------------
  // Batch import: parsing

  /** `(hostname, port, username, password)` of one parsed line. */
  datatype ParsedLine = ParsedLine(hostname: string, port: int, username: string, password: string)

  /** The tuple `_parse_proxy_line` returns once the four fields are cut
      out: all stripped, the port through `int()`. */
  function Fields(host: string, port: string, user: string, pass: string): Option<ParsedLine>
  {
    match ParseInt(Strip(port))
    case None => None
    case Some(n) => Some(ParsedLine(Strip(host), n, Strip(user), Strip(pass)))
  }

  /** `_parse_proxy_line(line, format_type)`: `format1` is
      `user:pass:host:port`, `format2` is `host:port:user:pass` (both exactly
      four `:` fields) and `format3` is `user:pass@host:port`, cut at the
      first `@` and then at the first `:` on each side. */
  function ParseProxyLine(line: string, format: string): Option<ParsedLine>
  {
    if format == "format1" || format == "format2" then
      var parts := Split(line, ':');
      if |parts| != 4 then None
      else if format == "format1" then Fields(parts[2], parts[3], parts[0], parts[1])
      else Fields(parts[0], parts[1], parts[2], parts[3])
    else if format == "format3" then
      match SplitOnce(line, '@')
      case None => None
      case Some((auth, server)) =>
        match SplitOnce(auth, ':')
        case None => None
        case Some((user, pass)) =>
          match SplitOnce(server, ':')
          case None => None
          case Some((host, port)) => Fields(host, port, user, pass)
    else None
  }

  /** The field texts a round trip through the line formats needs. */
  predicate PlainField(s: string, forbidden: set<char>)
  {
    IsStripped(s) && forall c :: c in forbidden ==> c !in s
  }

  lemma PortField(port: nat)
    ensures PlainField(Decimal(port), {':', '@'})
    ensures Fields("", Decimal(port), "", "").Some?
    ensures ParseInt(Strip(Decimal(port))) == Some(port)
  {
    DecimalDigits(port);
    var d := Decimal(port);
    assert IsDigit(d[0]) && IsDigit(d[|d| - 1]);
    StrippedFixpoint(d);
    DecimalRoundTrip(port);
    assert forall i :: 0 <= i < |d| ==> d[i] != ':' && d[i] != '@';
  }

  /** Four `:`-free fields joined by `:` split back into those fields. */
  lemma SplitFour(a: string, b: string, c: string, d: string)
    requires ':' !in a && ':' !in b && ':' !in c && ':' !in d
    ensures Split(a + ":" + b + ":" + c + ":" + d, ':') == [a, b, c, d]
  {
    var pieces := [a, b, c, d];
    assert Join(pieces, ':') == a + ":" + b + ":" + c + ":" + d by {
      JoinFour(a, b, c, d, ':');
    }
    assert forall j :: 0 <= j < |pieces| ==> ':' !in pieces[j];
    SplitOfJoin(pieces, ':');
  }

  lemma JoinFour(a: string, b: string, c: string, d: string, sep: char)
    ensures Join([a, b, c, d], sep) == a + [sep] + b + [sep] + c + [sep] + d
  {
    var s := [sep];
    assert Join([c, d], sep) == c + s + d by {
      assert [c, d][1..] == [d];
    }
    assert Join([b, c, d], sep) == b + s + (c + s + d) by {
      assert [b, c, d][1..] == [c, d];
    }
    assert Join([a, b, c, d], sep) == a + s + (b + s + (c + s + d)) by {
      assert [a, b, c, d][1..] == [b, c, d];
    }
    RightNested(a, b, c, d, s);
  }

  lemma RightNested(a: string, b: string, c: string, d: string, s: string)
    ensures a + s + (b + s + (c + s + d)) == a + s + b + s + c + s + d
  {
    assert b + s + (c + s + d) == b + s + c + s + d;
  }

  /** Stripped fields and a decimal port come back out of `Fields`. */
  lemma FieldsOf(host: string, port: nat, user: string, pass: string)
    requires IsStripped(host) && IsStripped(user) && IsStripped(pass)
    ensures Fields(host, Decimal(port), user, pass) == Some(ParsedLine(host, port, user, pass))
  {
    PortField(port);
    StrippedFixpoint(user);
    StrippedFixpoint(pass);
    StrippedFixpoint(host);
  }

  /** Writing a record as `user:pass:host:port` and parsing it as `format1`
      gives the record back. */
  lemma Format1RoundTrip(user: string, pass: string, host: string, port: nat)
    requires PlainField(user, {':'}) && PlainField(pass, {':'}) && PlainField(host, {':'})
    ensures ParseProxyLine(user + ":" + pass + ":" + host + ":" + Decimal(port), "format1") ==
      Some(ParsedLine(host, port, user, pass))
  {
    PortField(port);
    SplitFour(user, pass, host, Decimal(port));
    FieldsOf(host, port, user, pass);
  }

  /** The same for `host:port:user:pass` and `format2`. */
  lemma Format2RoundTrip(user: string, pass: string, host: string, port: nat)
    requires PlainField(user, {':'}) && PlainField(pass, {':'}) && PlainField(host, {':'})
    ensures ParseProxyLine(host + ":" + Decimal(port) + ":" + user + ":" + pass, "format2") ==
      Some(ParsedLine(host, port, user, pass))
  {
    PortField(port);
    SplitFour(host, Decimal(port), user, pass);
    FieldsOf(host, port, user, pass);
  }

  /** The same for `user:pass@host:port` and `format3`; the password may
      hold `:` and the host may hold `@`. */
  lemma Format3RoundTrip(user: string, pass: string, host: string, port: nat)
    requires PlainField(user, {':', '@'}) && PlainField(pass, {'@'}) && PlainField(host, {':'})
    ensures ParseProxyLine(user + ":" + pass + "@" + host + ":" + Decimal(port), "format3") ==
      Some(ParsedLine(host, port, user, pass))
  {
    var d := Decimal(port);
    PortField(port);
    var auth := user + ":" + pass;
    var server := host + ":" + d;
    var line := user + ":" + pass + "@" + host + ":" + d;
    assert line == auth + "@" + server;
    assert '@' !in auth;
    OnceAt(auth, server, '@');
    OnceAt(user, pass, ':');
    OnceAt(host, d, ':');
    FieldsOf(host, port, user, pass);
  }

  /** Cutting `a + [c] + b` at its first `c`, when `a` has none. */
  lemma OnceAt(a: string, b: string, c: char)
    requires c !in a
    ensures SplitOnce(a + [c] + b, c) == Some((a, b))
  {
    var s := a + [c] + b;
    assert s[..|a|] == a;
    FindFirst(s, c, |a|);
    assert s[|a| + 1..] == b;
  }

  /** `f"第{idx}行: {line}"` */
  function FailedLine(number: nat, line: string): string
  {
    "第" + Decimal(number) + "行: " + line
  }

  /** `_parse_proxy_lines` over the lines of the request: blank lines are
      skipped, the rest are parsed or reported with their 1-based number. */
  function ParseLines(lines: seq<string>, format: string): (seq<ParsedLine>, seq<string>)
  {
    if |lines| == 0 then ([], [])
    else
      var (parsed, failed) := ParseLines(lines[..|lines| - 1], format);
      var line := Strip(lines[|lines| - 1]);
      if line == "" then (parsed, failed)
      else match ParseProxyLine(line, format)
        case Some(p) => (parsed + [p], failed)
        case None => (parsed, failed + [FailedLine(|lines|, line)])
  }

  /** One more line is skipped, parsed or reported. */
  lemma ParseLinesLast(lines: seq<string>, format: string)
    requires |lines| > 0
    ensures var prev := ParseLines(lines[..|lines| - 1], format);
      var line := Strip(lines[|lines| - 1]);
      ParseLines(lines, format) ==
        if line == "" then prev
        else if ParseProxyLine(line, format).Some? then (prev.0 + [ParseProxyLine(line, format).value], prev.1)
        else (prev.0, prev.1 + [FailedLine(|lines|, line)])
  {
  }

  function CountNonBlank(lines: seq<string>): nat
  {
    if |lines| == 0 then 0
    else CountNonBlank(lines[..|lines| - 1]) + (if Strip(lines[|lines| - 1]) == "" then 0 else 1)
  }

  lemma {:induction false} ParseLinesCount(lines: seq<string>, format: string)
    ensures |ParseLines(lines, format).0| + |ParseLines(lines, format).1| == CountNonBlank(lines)
    decreases |lines|
  {
    if |lines| > 0 {
      ParseLinesCount(lines[..|lines| - 1], format);
    }
  }

  lemma {:induction false} ParseLinesParsed(lines: seq<string>, format: string)
    ensures forall j :: 0 <= j < |ParseLines(lines, format).0| ==>
      exists i :: 0 <= i < |lines| && ParseProxyLine(Strip(lines[i]), format) == Some(ParseLines(lines, format).0[j])
    decreases |lines|
  {
    if |lines| > 0 {
      var init := lines[..|lines| - 1];
      var before := ParseLines(init, format).0;
      var after := ParseLines(lines, format).0;
      ParseLinesParsed(init, format);
      forall j | 0 <= j < |after|
        ensures exists i :: 0 <= i < |lines| && ParseProxyLine(Strip(lines[i]), format) == Some(after[j])
      {
        if j < |before| {
          assert after[j] == before[j];
          var i :| 0 <= i < |init| && ParseProxyLine(Strip(init[i]), format) == Some(before[j]);
          assert lines[i] == init[i];
        } else {
          assert ParseProxyLine(Strip(lines[|lines| - 1]), format) == Some(after[j]);
        }
      }
    } else {
      assert ParseLines(lines, format) == ([], []);
    }
  }

  /** Every report in `failed` is that of a non-blank line of `lines` that
      does not parse, with its 1-based number. */
  predicate FailuresTraced(lines: seq<string>, format: string, failed: seq<string>)
  {
    forall j :: 0 <= j < |failed| ==> Traced(lines, format, failed[j])
  }

  /** `report` is that of some non-blank line that does not parse. */
  predicate Traced(lines: seq<string>, format: string, report: string)
  {
    exists i :: 0 <= i < |lines| && FailedAt(lines, format, report, i)
  }

  /** `report` is that of line `i` (0-based), which is non-blank and does
      not parse. */
  predicate FailedAt(lines: seq<string>, format: string, report: string, i: int)
  {
    0 <= i < |lines| && Strip(lines[i]) != "" && ParseProxyLine(Strip(lines[i]), format).None? &&
    report == FailedLine(i + 1, Strip(lines[i]))
  }

  lemma ParseLinesFailed(lines: seq<string>, format: string)
    ensures FailuresTraced(lines, format, ParseLines(lines, format).1)
  {
    var failed := ParseLines(lines, format).1;
    forall j | 0 <= j < |failed|
      ensures Traced(lines, format, failed[j])
    {
      var i := FailedLineSource(lines, format, j);
      assert FailedAt(lines, format, failed[j], i);
    }
  }

  /** The line the `j`-th report is about: non-blank, not parsable, and
      numbered from 1. */
  lemma {:induction false} FailedLineSource(lines: seq<string>, format: string, j: int) returns (i: nat)
    requires 0 <= j < |ParseLines(lines, format).1|
    ensures i < |lines| && Strip(lines[i]) != "" && ParseProxyLine(Strip(lines[i]), format).None?
    ensures ParseLines(lines, format).1[j] == FailedLine(i + 1, Strip(lines[i]))
    decreases |lines|
  {
    ParseLinesCount(lines, format);
    CountNonBlankBound(lines);
    var n := |lines| - 1;
    var line := Strip(lines[n]);
    var fails := line != "" && ParseProxyLine(line, format).None?;
    var before := ParseLines(lines[..n], format).1;
    assert ParseLines(lines, format).1 == before + (if fails then [FailedLine(n + 1, line)] else []) by {
      ParseLinesLast(lines, format);
    }
    if j < |before| {
      i := FailedLineSource(lines[..n], format, j);
      assert lines[i] == lines[..n][i];
    } else {
      i := n;
    }
  }

  lemma {:induction false} CountNonBlankBound(lines: seq<string>)
    ensures CountNonBlank(lines) <= |lines|
    decreases |lines|
  {
    if |lines| > 0 {
      CountNonBlankBound(lines[..|lines| - 1]);
    }
  }

  /** The loop of `_parse_proxy_lines`. */
  method ParseProxyLines(text: string, format: string) returns (parsed: seq<ParsedLine>, failed: seq<string>)
    ensures (parsed, failed) == ParseLines(Split(text, '\n'), format)
  {
    var lines := Split(text, '\n');
    parsed, failed := [], [];
    var idx := 0;
    while idx < |lines|
      invariant 0 <= idx <= |lines|
      invariant (parsed, failed) == ParseLines(lines[..idx], format)
    {
      assert lines[..idx + 1][..idx] == lines[..idx];
      var line := Strip(lines[idx]);
      if line != "" {
        var result := ParseProxyLine(line, format);
        if result.Some? {
          parsed := parsed + [result.value];
        } else {
          failed := failed + [FailedLine(idx + 1, line)];
        }
      }
      idx := idx + 1;
    }
    assert lines[..idx] == lines;
  }

  // ---------------------------------------------------------------------
  // Batch import: naming and appending

  /** `f"{name_prefix}_{current_counter:03d}"` */
  function BatchName(prefix: string, counter: int): string
  {
    prefix + "_" + Format03(counter)
  }

  /** The record the batch loop appends. `isBak` is `None` where the caller
      writes no `IsBak` key. */
  function NewRecord(name: string, line: ParsedLine, region: string, dialer: string, isBak: Option<bool>): Dict
  {
    var base := map[
      "name" := VStr(name), "type" := VStr("socks5"), "server" := VStr(line.hostname),
      "port" := VInt(line.port), "region" := VStr(region), "username" := VStr(line.username),
      "password" := VStr(line.password), "skip-cert-verify" := VBool(true), "udp" := VBool(true)];
    var withBak := if isBak.Some? then base["IsBak" := VBool(isBak.value)] else base;
    if dialer != "" then withBak["dialer-proxy" := VStr(dialer)] else withBak
  }

  /** The batch loop over the parsed lines: the counter advances once per
      line, and a line whose generated name is already taken is skipped.
      Gives the new list and the names added. */
  function BatchRun(ps: seq<Dict>, parsed: seq<ParsedLine>, prefix: string, start: int,
                    region: string, dialer: string, isBak: Option<bool>): (seq<Dict>, seq<string>)
    decreases |parsed|
  {
    if |parsed| == 0 then (ps, [])
    else
      var (qs, added) := BatchRun(ps, parsed[..|parsed| - 1], prefix, start, region, dialer, isBak);
      var name := BatchName(prefix, start + |parsed|);
      if NameInUse(qs, name, None) then (qs, added)
      else (qs + [NewRecord(name, parsed[|parsed| - 1], region, dialer, isBak)], added + [name])
  }

  /** The counter loop of `batch_add_proxies`. */
  method AppendBatch(ps: seq<Dict>, parsed: seq<ParsedLine>, prefix: string, start: int,
                     region: string, dialer: string, isBak: Option<bool>)
    returns (qs: seq<Dict>, added: seq<string>, counter: int)
    ensures (qs, added) == BatchRun(ps, parsed, prefix, start, region, dialer, isBak)
    ensures counter == start + |parsed|
  {
    qs, added, counter := ps, [], start;
    var i := 0;
    while i < |parsed|
      invariant 0 <= i <= |parsed|
      invariant counter == start + i
      invariant (qs, added) == BatchRun(ps, parsed[..i], prefix, start, region, dialer, isBak)
    {
      assert parsed[..i + 1][..i] == parsed[..i];
      counter := counter + 1;
      var name := prefix + "_" + Format03(counter);
      var taken := CheckNameExists(qs, name, None);
      if !taken {
        qs := qs + [NewRecord(name, parsed[i], region, dialer, isBak)];
        added := added + [name];
      }
      i := i + 1;
    }
    assert parsed[..i] == parsed;
  }

  /** The record a batch appends carries the generated name and no `IsBase`
      key, so it is a normal proxy. */
  lemma NewRecordSpec(name: string, line: ParsedLine, region: string, dialer: string, isBak: Option<bool>)
    ensures NameOf(NewRecord(name, line, region, dialer, isBak)) == VStr(name)
    ensures "IsBase" !in NewRecord(name, line, region, dialer, isBak)
    ensures !IsTransitProxy(NewRecord(name, line, region, dialer, isBak))
  {
    var rec := NewRecord(name, line, region, dialer, isBak);
    assert "name" in rec && rec["name"] == VStr(name);
  }

  /** What a batch does to the list: it only appends, one record per added
      name, and adds at most one record per parsed line. */
  lemma {:induction false} BatchRunLengths(ps: seq<Dict>, parsed: seq<ParsedLine>, prefix: string, start: int,
                                           region: string, dialer: string, isBak: Option<bool>)
    ensures var run := BatchRun(ps, parsed, prefix, start, region, dialer, isBak);
      |run.1| <= |parsed| && |run.0| == |ps| + |run.1| && run.0[..|ps|] == ps
    decreases |parsed|
  {
    if |parsed| > 0 {
      var init := parsed[..|parsed| - 1];
      BatchRunLengths(ps, init, prefix, start, region, dialer, isBak);
      var run := BatchRun(ps, init, prefix, start, region, dialer, isBak);
      var name := BatchName(prefix, start + |parsed|);
      if !NameInUse(run.0, name, None) {
        var rec := NewRecord(name, parsed[|parsed| - 1], region, dialer, isBak);
        assert (run.0 + [rec])[..|ps|] == run.0[..|ps|];
      }
    }
  }

  /** Each appended record is a normal proxy named after its added name. */
  lemma {:induction false} BatchRunAppends(ps: seq<Dict>, parsed: seq<ParsedLine>, prefix: string, start: int,
                                           region: string, dialer: string, isBak: Option<bool>)
    ensures var run := BatchRun(ps, parsed, prefix, start, region, dialer, isBak);
      |run.1| <= |parsed| && |run.0| == |ps| + |run.1| && run.0[..|ps|] == ps &&
      forall j :: 0 <= j < |run.1| ==>
        NameOf(run.0[|ps| + j]) == VStr(run.1[j]) && !IsTransitProxy(run.0[|ps| + j])
    decreases |parsed|
  {
    BatchRunLengths(ps, parsed, prefix, start, region, dialer, isBak);
    if |parsed| > 0 {
      var init := parsed[..|parsed| - 1];
      BatchRunAppends(ps, init, prefix, start, region, dialer, isBak);
      var run := BatchRun(ps, init, prefix, start, region, dialer, isBak);
      var name := BatchName(prefix, start + |parsed|);
      if !NameInUse(run.0, name, None) {
        var rec := NewRecord(name, parsed[|parsed| - 1], region, dialer, isBak);
        NewRecordSpec(name, parsed[|parsed| - 1], region, dialer, isBak);
        var qs, added := run.0 + [rec], run.1 + [name];
        assert BatchRun(ps, parsed, prefix, start, region, dialer, isBak) == (qs, added);
        forall j | 0 <= j < |added|
          ensures NameOf(qs[|ps| + j]) == VStr(added[j]) && !IsTransitProxy(qs[|ps| + j])
        {
          if j < |run.1| {
            assert qs[|ps| + j] == run.0[|ps| + j];
          }
        }
      }
    }
  }

  /** The names a batch adds are new to the old list and to each other, and
      each is `prefix_NNN` for one of the counters the batch went through. */
  lemma {:induction false} BatchRunNames(ps: seq<Dict>, parsed: seq<ParsedLine>, prefix: string, start: int,
                                         region: string, dialer: string, isBak: Option<bool>)
    ensures var run := BatchRun(ps, parsed, prefix, start, region, dialer, isBak);
      (forall j :: 0 <= j < |run.1| ==> !NameInUse(ps, run.1[j], None)) &&
      (forall j, k :: 0 <= j < k < |run.1| ==> run.1[j] != run.1[k]) &&
      (forall j :: 0 <= j < |run.1| ==>
        exists counter :: start < counter <= start + |parsed| && run.1[j] == BatchName(prefix, counter))
    decreases |parsed|
  {
    if |parsed| > 0 {
      var init := parsed[..|parsed| - 1];
      BatchRunNames(ps, init, prefix, start, region, dialer, isBak);
      BatchRunAppends(ps, init, prefix, start, region, dialer, isBak);
      var run := BatchRun(ps, init, prefix, start, region, dialer, isBak);
      var name := BatchName(prefix, start + |parsed|);
      if !NameInUse(run.0, name, None) {
        forall j | 0 <= j < |run.1|
          ensures run.1[j] != name
        {
          assert NameOf(run.0[|ps| + j]) == VStr(run.1[j]);
        }
        forall i | 0 <= i < |ps| ensures NameOf(ps[i]) != VStr(name) {
          assert ps[i] == run.0[i];
        }
      }
    }
  }

  /** A batch keeps record names unique. */
  lemma {:induction false} BatchRunUnique(ps: seq<Dict>, parsed: seq<ParsedLine>, prefix: string, start: int,
                                          region: string, dialer: string, isBak: Option<bool>)
    requires UniqueNames(ps)
    ensures UniqueNames(BatchRun(ps, parsed, prefix, start, region, dialer, isBak).0)
    decreases |parsed|
  {
    if |parsed| > 0 {
      var init := parsed[..|parsed| - 1];
      var qs := BatchRun(ps, init, prefix, start, region, dialer, isBak).0;
      assert UniqueNames(qs) by {
        BatchRunUnique(ps, init, prefix, start, region, dialer, isBak);
      }
      var name := BatchName(prefix, start + |parsed|);
      if !NameInUse(qs, name, None) {
        var rec := NewRecord(name, parsed[|parsed| - 1], region, dialer, isBak);
        assert FreeFor(qs, rec, |qs|) by {
          assert NameOf(rec) == VStr(name);
          assert !NameInUse(qs, name, Some(|qs|));
        }
        AppendKeepsUnique(qs, rec);
        assert BatchRun(ps, parsed, prefix, start, region, dialer, isBak).0 == qs + [rec];
      } else {
        assert BatchRun(ps, parsed, prefix, start, region, dialer, isBak).0 == qs;
      }
    }
  }

  // ---------------------------------------------------------------------
  // Batch import: the request

  /** The stripped request fields of `batch_add_proxies`. */
  datatype BatchRequest = BatchRequest(lines: string, format: string, region: string, prefix: string, dialer: string, isBak: bool)

  /** Reading the request; a field that is not a string raises on `.strip()`. */
  function ReadBatchRequest(data: Dict): Option<BatchRequest>
  {
    match (StrField(data, "proxy_lines"), StrField(data, "format_type"), StrField(data, "region"),
           StrField(data, "name_prefix"), StrField(data, "dialer_proxy"))
    case (Some(l), Some(f), Some(g), Some(p), Some(d)) =>
      Some(BatchRequest(Strip(l), Strip(f), Upper(Strip(g)), Strip(p), Strip(d), Truthy(Get(data, "is_bak", VBool(false)))))
    case _ => None
  }

  /** The parameter checks, in the source's order. */
  function CheckBatchRequest(q: BatchRequest, regions: seq<Dict>): (r: Option<ProxyError>)
    ensures r.None? <==>
      q.lines != "" && q.format in {"format1", "format2", "format3"} && q.region != "" &&
      q.prefix != "" && KnownRegion(regions, q.region)
  {
    if q.lines == "" then Some(EmptyProxyLines)
    else if q.format !in {"format1", "format2", "format3"} then Some(BadFormat)
    else if q.region == "" then Some(RegionRequired)
    else if q.prefix == "" then Some(PrefixRequired)
    else if !KnownRegion(regions, q.region) then Some(UnknownRegion(q.region))
    else None
  }

  function Take<T>(xs: seq<T>, n: nat): seq<T>
  {
    if |xs| <= n then xs else xs[..n]
  }

  /** The `(True, result)` of `batch_add_proxies`: the names added, the
      number of failed lines and the first ten of them. */
  datatype BatchReport = BatchReport(added: seq<string>, failedCount: nat, failedShown: seq<string>)

  datatype BatchResult = BatchResult(proxies: seq<Dict>, counters: Dict, report: BatchReport)

  /** What `batch_add_proxies` has settled before its loop: the request,
      the parsed lines and failure reports, and the counter to start from. */
  datatype BatchPlan = BatchPlan(request: BatchRequest, parsed: seq<ParsedLine>, failed: seq<string>, start: int)

  /** `batch_add_proxies` up to its loop: reading and checking the request,
      parsing the lines (at least one must parse) and reading the prefix's
      counter (`0` when missing; a counter that is no number raises on
      `+= 1`). */
  function PlanBatch(data: Dict, counters: Dict, regions: seq<Dict>): Result<BatchPlan, ProxyError>
  {
    match ReadBatchRequest(data)
    case None => Err(Raised)
    case Some(q) =>
      match CheckBatchRequest(q, regions)
      case Some(e) => Err(e)
      case None =>
        var lines := ParseLines(Split(q.lines, '\n'), q.format);
        if |lines.0| == 0 then Err(NothingParsed(Take(lines.1, 5)))
        else
          var c := Get(counters, q.prefix, VInt(0));
          if !IsNumber(c) then Err(Raised)
          else Ok(BatchPlan(q, lines.0, lines.1, NumberOf(c)))
  }

  /** `batch_add_proxies` after the device check: the new proxy list and
      name counters, or the error. Nothing is saved on an error. */
  function Batch(data: Dict, ps: seq<Dict>, counters: Dict, regions: seq<Dict>): Result<BatchResult, ProxyError>
  {
    match PlanBatch(data, counters, regions)
    case Err(e) => Err(e)
    case Ok(plan) => RunPlan(ps, counters, plan)
  }

  /** The loop and what follows it: at least one record must be added; the
      counter saved is the one the loop ended on. */
  function RunPlan(ps: seq<Dict>, counters: Dict, plan: BatchPlan): Result<BatchResult, ProxyError>
  {
    var q := plan.request;
    var run := BatchRun(ps, plan.parsed, q.prefix, plan.start, q.region, q.dialer, Some(q.isBak));
    if |run.1| == 0 then Err(AllNamesTaken)
    else Ok(BatchResult(run.0, counters[q.prefix := VInt(plan.start + |plan.parsed|)],
                        BatchReport(run.1, |plan.failed|, Take(plan.failed, 10))))
  }

  method RunBatchPlan(ps: seq<Dict>, counters: Dict, plan: BatchPlan) returns (r: Result<BatchResult, ProxyError>)
    ensures r == RunPlan(ps, counters, plan)
  {
    var q := plan.request;
    var qs, added, counter := AppendBatch(ps, plan.parsed, q.prefix, plan.start, q.region, q.dialer, Some(q.isBak));
    if |added| == 0 {
      return Err(AllNamesTaken);
    }
    return Ok(BatchResult(qs, counters[q.prefix := VInt(counter)], BatchReport(added, |plan.failed|, Take(plan.failed, 10))));
  }

    /** A plan is made only from a request with lines that parse and a
      numeric counter for the prefix, which the plan starts from. */
  lemma PlanBatchSpec(data: Dict, counters: Dict, regions: seq<Dict>)
    requires PlanBatch(data, counters, regions).Ok?
    ensures var plan := PlanBatch(data, counters, regions).value;
      var c := Get(counters, plan.request.prefix, VInt(0));
      IsNumber(c) && plan.start == NumberOf(c) && |plan.parsed| > 0
  {
  }

  /** Running a plan appends the records it added after the existing ones
      and moves the prefix's counter past every parsed line. */
  lemma RunPlanSpec(ps: seq<Dict>, counters: Dict, plan: BatchPlan)
    requires RunPlan(ps, counters, plan).Ok?
    ensures var b := RunPlan(ps, counters, plan).value;
      b.counters == counters[plan.request.prefix := VInt(plan.start + |plan.parsed|)] &&
      |b.proxies| == |ps| + |b.report.added| && b.proxies[..|ps|] == ps &&
      0 < |b.report.added| <= |plan.parsed| &&
      (UniqueNames(ps) ==> UniqueNames(b.proxies))
  {
    var q := plan.request;
    var run := BatchRun(ps, plan.parsed, q.prefix, plan.start, q.region, q.dialer, Some(q.isBak));
    assert |run.1| <= |plan.parsed| && |run.0| == |ps| + |run.1| && run.0[..|ps|] == ps by {
      BatchRunAppends(ps, plan.parsed, q.prefix, plan.start, q.region, q.dialer, Some(q.isBak));
    }
    if UniqueNames(ps) {
      assert UniqueNames(run.0) by {
        BatchRunUnique(ps, plan.parsed, q.prefix, plan.start, q.region, q.dialer, Some(q.isBak));
      }
    }
  }

  /** The steps of `batch_add_proxies` before its loop, parsing the lines
      with the loop of `_parse_proxy_lines`. */
  method PlanBatchRequest(data: Dict, counters: Dict, regions: seq<Dict>) returns (r: Result<BatchPlan, ProxyError>)
    ensures r == PlanBatch(data, counters, regions)
  {
    var request := ReadBatchRequest(data);
    if request.None? {
      return Err(Raised);
    }
    var q := request.value;
    var check := CheckBatchRequest(q, regions);
    if check.Some? {
      return Err(check.value);
    }
    var parsed, failed := ParseProxyLines(q.lines, q.format);
    if |parsed| == 0 {
      return Err(NothingParsed(Take(failed, 5)));
    }
    var c := Get(counters, q.prefix, VInt(0));
    if !IsNumber(c) {
      return Err(Raised);
    }
    return Ok(BatchPlan(q, parsed, failed, NumberOf(c)));
  }

  // ---------------------------------------------------------------------
  // The service

  /** `ProxyService`: each operation works on the loaded configuration of
      the device `deviceId` (`doc`) and on the settings. An operation that
      fails leaves both as they were; one that succeeds has synchronised
      `proxy-groups` with the new proxy list. */
  class ProxyService {
    const settings: SettingStore

    constructor (settings: SettingStore)
      ensures this.settings == settings
    {
      this.settings := settings;
    }

    /** `get_all_proxies(device_id)` */
    method GetAllProxies(doc: Document) returns (view: seq<Dict>)
      ensures view == KindView(doc.proxies, false)
    {
      view := GetKindView(doc.proxies, false);
    }

    /** `add_proxy(data, device_id)` */
    method AddProxy(doc: Document, deviceId: string, data: Dict) returns (r: Result<Dict, ProxyError>)
      modifies doc
      ensures deviceId == "" ==> r == Err(MissingDeviceId)
      ensures deviceId != "" ==>
        var check := ValidateProxyData(data, old(doc.proxies), settings.regions, None);
        (check.Some? ==> r == Err(check.value)) &&
        (check.None? ==> r == Ok(BuildProxyConfig(data, None)))
      ensures r.Err? ==> doc.proxies == old(doc.proxies) && doc.groups == old(doc.groups)
      ensures r.Ok? ==>
        doc.proxies == old(doc.proxies) + [r.value] &&
        doc.groups == SyncedGroups(old(doc.groups), ProxyNames(doc.proxies))
    {
      if deviceId == "" {
        return Err(MissingDeviceId);
      }
      var check := ValidateProxyData(data, doc.proxies, settings.regions, None);
      if check.Some? {
        return Err(check.value);
      }
      var p := BuildProxyConfig(data, None);
      doc.proxies := doc.proxies + [p];
      UpdateProxyGroups(doc);
      return Ok(p);
    }

    /** `update_proxy(index, data, device_id)`: `index` is a position in
        the full list. */
    method UpdateProxy(doc: Document, deviceId: string, index: int, data: Dict) returns (r: Result<Dict, ProxyError>)
      modifies doc
      ensures deviceId == "" ==> r == Err(MissingDeviceId)
      ensures deviceId != "" && !(0 <= index < |old(doc.proxies)|) ==> r == Err(IndexOutOfRange)
      ensures deviceId != "" && 0 <= index < |old(doc.proxies)| ==>
        r == Revised(data, old(doc.proxies), settings.regions, index)
      ensures r.Err? ==> doc.proxies == old(doc.proxies) && doc.groups == old(doc.groups)
      ensures r.Ok? ==>
        0 <= index < |old(doc.proxies)| &&
        doc.proxies == old(doc.proxies)[index := r.value] &&
        doc.groups == SyncedGroups(old(doc.groups), ProxyNames(doc.proxies))
    {
      if deviceId == "" {
        return Err(MissingDeviceId);
      }
      if index < 0 || index >= |doc.proxies| {
        return Err(IndexOutOfRange);
      }
      r := Revised(data, doc.proxies, settings.regions, index);
      if r.Err? {
        return;
      }
      var p := r.value;
      doc.proxies := doc.proxies[index := p];
      UpdateProxyGroups(doc);
      return Ok(p);
    }

    /** `update_proxy_by_name(proxy_name, data, device_id)`: the first record
        of that name is replaced; when its name changes, references in the
        groups are renamed before the groups are synchronised. */
    method UpdateProxyByName(doc: Document, deviceId: string, name: string, data: Dict)
      returns (r: Result<Dict, ProxyError>)
      modifies doc
      ensures deviceId == "" ==> r == Err(MissingDeviceId)
      ensures deviceId != "" && FirstNamed(old(doc.proxies), name).None? ==> r == Err(NameNotFound(name))
      ensures deviceId != "" && FirstNamed(old(doc.proxies), name).Some? ==>
        r == Revised(data, old(doc.proxies), settings.regions, FirstNamed(old(doc.proxies), name).value)
      ensures r.Err? ==> doc.proxies == old(doc.proxies) && doc.groups == old(doc.groups)
      ensures r.Ok? ==>
        FirstNamed(old(doc.proxies), name).Some? &&
        var k := FirstNamed(old(doc.proxies), name).value;
        doc.proxies == old(doc.proxies)[k := r.value] &&
        doc.groups == SyncedGroups(
          if r.value["name"] != VStr(name) then RenamedGroups(old(doc.groups), VStr(name), r.value["name"])
          else old(doc.groups),
          ProxyNames(doc.proxies))
    {
      if deviceId == "" {
        return Err(MissingDeviceId);
      }
      var found := FindByName(doc.proxies, name);
      if found.None? {
        return Err(NameNotFound(name));
      }
      r := ReviseNamed(doc, found.value, name, data);
    }

    /** `update_proxy_by_name` once the record named `name` is found at `k`:
        the old name is read back from the record. */
    method ReviseNamed(doc: Document, k: nat, name: string, data: Dict) returns (r: Result<Dict, ProxyError>)
      requires k < |doc.proxies| && NameOf(doc.proxies[k]) == VStr(name)
      modifies doc
      ensures r == Revised(data, old(doc.proxies), settings.regions, k)
      ensures r.Err? ==> doc.proxies == old(doc.proxies) && doc.groups == old(doc.groups)
      ensures r.Ok? ==>
        doc.proxies == old(doc.proxies)[k := r.value] &&
        doc.groups == SyncedGroups(
          if r.value["name"] != VStr(name) then RenamedGroups(old(doc.groups), VStr(name), r.value["name"])
          else old(doc.groups),
          ProxyNames(doc.proxies))
    {
      r := Revised(data, doc.proxies, settings.regions, k);
      if r.Err? {
        return;
      }
      var p := r.value;
      var oldName := Get(doc.proxies[k], "name", VStr(name));
      doc.proxies := doc.proxies[k := p];
      RenameThenSync(doc, oldName, p["name"]);
    }

    /** `delete_proxy(index, device_id)`: `index` is a position in the view
        of normal proxies, mapped back through `_index`. */
    method DeleteProxy(doc: Document, deviceId: string, index: int) returns (r: Result<Dict, ProxyError>)
      modifies doc
      ensures deviceId == "" ==> r == Err(MissingDeviceId)
      ensures deviceId != "" ==> (r.Ok? <==> 0 <= index < |Positions(old(doc.proxies), false)|)
      ensures r.Err? ==> doc.proxies == old(doc.proxies) && doc.groups == old(doc.groups)
      ensures r.Err? && deviceId != "" ==> r == Err(IndexOutOfRange)
      ensures r.Ok? ==>
        0 <= index < |Positions(old(doc.proxies), false)| &&
        var k := Positions(old(doc.proxies), false)[index];
        k < |old(doc.proxies)| && r.value == old(doc.proxies)[k] &&
        doc.proxies == Without(old(doc.proxies), k) &&
        doc.groups == SyncedGroups(old(doc.groups), ProxyNames(doc.proxies))
    {
      if deviceId == "" {
        return Err(MissingDeviceId);
      }
      var view := GetKindView(doc.proxies, false);
      KindViewSpec(doc.proxies, false);
      if index < 0 || index >= |view| {
        return Err(IndexOutOfRange);
      }
      var tagged: Dict := view[index];
      var original := tagged["_index"].i;
      var deleted := doc.proxies[original];
      doc.proxies := Without(doc.proxies, original);
      UpdateProxyGroups(doc);
      return Ok(deleted);
    }

    /** `delete_proxy_by_name(proxy_name, device_id)` */
    method DeleteProxyByName(doc: Document, deviceId: string, name: string) returns (r: Result<Dict, ProxyError>)
      modifies doc
      ensures deviceId == "" ==> r == Err(MissingDeviceId)
      ensures deviceId != "" && FirstNamed(old(doc.proxies), name).None? ==> r == Err(NameNotFound(name))
      ensures r.Err? <==> deviceId == "" || FirstNamed(old(doc.proxies), name).None?
      ensures r.Err? ==> doc.proxies == old(doc.proxies) && doc.groups == old(doc.groups)
      ensures r.Ok? ==>
        deviceId != "" && FirstNamed(old(doc.proxies), name).Some? &&
        var k := FirstNamed(old(doc.proxies), name).value;
        r.value == old(doc.proxies)[k] &&
        doc.proxies == Without(old(doc.proxies), k) &&
        doc.groups == SyncedGroups(old(doc.groups), ProxyNames(doc.proxies))
    {
      if deviceId == "" {
        return Err(MissingDeviceId);
      }
      var found := FindByName(doc.proxies, name);
      if found.None? {
        return Err(NameNotFound(name));
      }
      var deleted := doc.proxies[found.value];
      doc.proxies := Without(doc.proxies, found.value);
      UpdateProxyGroups(doc);
      return Ok(deleted);
    }

    /** `batch_add_proxies(data, device_id)` */
    method BatchAddProxies(doc: Document, deviceId: string, data: Dict) returns (r: Result<BatchReport, ProxyError>)
      modifies doc, settings
      ensures deviceId == "" ==> r == Err(MissingDeviceId)
      ensures deviceId != "" ==>
        var b := Batch(data, old(doc.proxies), old(settings.nameCounters), old(settings.regions));
        (b.Err? ==> r == Err(b.error)) &&
        (b.Ok? ==> r == Ok(b.value.report) && doc.proxies == b.value.proxies &&
                   settings.nameCounters == b.value.counters &&
                   doc.groups == SyncedGroups(old(doc.groups), ProxyNames(doc.proxies)))
      ensures r.Err? ==>
        doc.proxies == old(doc.proxies) && doc.groups == old(doc.groups) &&
        settings.nameCounters == old(settings.nameCounters)
      ensures settings.regions == old(settings.regions) && settings.devices == old(settings.devices) &&
        settings.vmCounters == old(settings.vmCounters) && settings.paths == old(settings.paths)
    {
      if deviceId == "" {
        return Err(MissingDeviceId);
      }
      var plan := PlanBatchRequest(data, settings.nameCounters, settings.regions);
      if plan.Err? {
        return Err(plan.error);
      }
      var result := RunBatchPlan(doc.proxies, settings.nameCounters, plan.value);
      if result.Err? {
        return Err(result.error);
      }
      settings.nameCounters := result.value.counters;
      doc.proxies := result.value.proxies;
      UpdateProxyGroups(doc);
      return Ok(result.value.report);
    }
  }
}
