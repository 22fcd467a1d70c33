/** `services/transit_service.py`: the transit lines (`IsBase` records) of
    the default configuration — listing them, building a transit record,
    add / update / delete through the view of transit lines, the guard that
    refuses to delete a line some proxy still dials through, and the tally
    of a push to the connected devices. */
module TransitService {
  import opened Values
  import opened Text
  import opened YamlHelper
  import opened ConfigManager
  import opened ProxyService

  /** The `(False, message)` results of the service. */
  datatype TransitError =
    | NoSuchTransit
    | DuplicateName(name: string)
      /** The names of the proxies that still dial through the line. */
    | InUse(users: seq<Value>)
      /** `", ".join(used_by)` raised `TypeError`: a user's label is not a
          string. */
    | LabelNotString
      /** `.strip()` on a request name that is not a string. */
    | NameNotString

  // ---------------------------------------------------------------------
  // Building a transit record

  /** The keys `_build_transit_config` always writes. */
  const TransitKeys: set<string> := {"name", "type", "server", "port", "IsBase", "skip-cert-verify"}

  /** The keys it copies from the request only when the request has them. */
  const CopiedKeys: set<string> := {"password", "username", "sni", "udp"}

  /** `_build_transit_config(data)`. */
  function BuildTransitConfig(data: Dict): (r: Dict)
    requires StrField(data, "name").Some?
    ensures "name" in r && r["name"] == VStr(Strip(StrField(data, "name").value))
  {
    var base := map[
      "name" := VStr(Strip(StrField(data, "name").value)),
      "type" := Get(data, "type", VStr("socks5")),
      "server" := Get(data, "server", VStr("")),
      "port" := ConvertPort(Get(data, "port", VStr(""))),
      "IsBase" := VBool(true)];
    var withPassword := if "password" in data then base["password" := data["password"]] else base;
    var withUser := if "username" in data then withPassword["username" := data["username"]] else withPassword;
    var withSni := if "sni" in data then withUser["sni" := data["sni"]] else withUser;
    var withSkip := withSni["skip-cert-verify" := Get(data, "skip-cert-verify", VBool(true))];
    if "udp" in data then withSkip["udp" := data["udp"]] else withSkip
  }

  /** A built record is always a transit line and never dials through
      another one; `skip-cert-verify` defaults to `True`, while `password`,
      `username`, `sni` and `udp` are present exactly when the request gives
      them, with the request's value. */
  lemma BuildTransitSpec(data: Dict)
    requires StrField(data, "name").Some?
    ensures var r := BuildTransitConfig(data);
      IsTransitProxy(r) && "dialer-proxy" !in r &&
      r["skip-cert-verify"] == Get(data, "skip-cert-verify", VBool(true)) &&
      forall k :: k in CopiedKeys ==> (k in r <==> k in data) && (k in r ==> r[k] == data[k])
  {
    var r := BuildTransitConfig(data);
    assert IsTransitProxy(r) by {
      assert Get(r, "IsBase", VBool(false)) == VBool(true);
      assert PyEq(VBool(true), VBool(true));
    }
    assert "dialer-proxy" !in r;
    forall k | k in CopiedKeys
      ensures (k in r <==> k in data) && (k in r ==> r[k] == data[k])
    {
      CopiedKey(data, k);
    }
  }

  /** A built record holds every always-written key and nothing beyond the
      copied ones. */
  lemma TransitKeySet(data: Dict)
    requires StrField(data, "name").Some?
    ensures TransitKeys <= BuildTransitConfig(data).Keys <= TransitKeys + CopiedKeys
  {
  }

  /** One copied key at a time: the later updates do not touch it. */
  lemma CopiedKey(data: Dict, k: string)
    requires StrField(data, "name").Some? && k in CopiedKeys
    ensures var r := BuildTransitConfig(data);
      (k in r <==> k in data) && (k in r ==> r[k] == data[k])
  {
    if k == "password" {
    } else if k == "username" {
    } else if k == "sni" {
    } else {
      assert k == "udp";
    }
  }

  // ---------------------------------------------------------------------
  // Transit names

  /** `[t.get('name', '') for t in transits if t.get('name')]` */
  function TransitNames(view: seq<Dict>): seq<Value>
  {
    if |view| == 0 then []
    else
      var last := Get(view[|view| - 1], "name", VStr(""));
      TransitNames(view[..|view| - 1]) + (if Truthy(last) then [last] else [])
  }

  /** `get_transit_names` lists exactly the non-empty names of the transit
      lines: the `_index` tag of the view does not touch the names. */
  lemma {:induction false} TransitNamesSpec(ps: seq<Dict>)
    ensures forall v :: v in TransitNames(KindView(ps, true)) <==>
      exists i :: 0 <= i < |ps| && IsTransitProxy(ps[i]) && "name" in ps[i] && Truthy(ps[i]["name"]) && v == ps[i]["name"]
    decreases |ps|
  {
    if |ps| > 0 {
      var init := ps[..|ps| - 1];
      var last := ps[|ps| - 1];
      TransitNamesSpec(init);
      var before := KindView(init, true);
      var tagged := if IsTransitProxy(last) then [last["_index" := VInt(|ps| - 1)]] else [];
      assert KindView(ps, true) == before + tagged;
      if IsTransitProxy(last) {
        TransitNamesSnoc(before, last["_index" := VInt(|ps| - 1)]);
      } else {
        assert before + tagged == before;
      }
      forall v | (exists i :: 0 <= i < |ps| && IsTransitProxy(ps[i]) && "name" in ps[i] && Truthy(ps[i]["name"]) && v == ps[i]["name"])
        ensures v in TransitNames(KindView(ps, true))
      {
        var i :| 0 <= i < |ps| && IsTransitProxy(ps[i]) && "name" in ps[i] && Truthy(ps[i]["name"]) && v == ps[i]["name"];
        if i < |ps| - 1 {
          assert init[i] == ps[i];
        }
      }
      forall v | v in TransitNames(before)
        ensures exists i :: 0 <= i < |ps| && IsTransitProxy(ps[i]) && "name" in ps[i] && Truthy(ps[i]["name"]) && v == ps[i]["name"]
      {
        var i :| 0 <= i < |init| && IsTransitProxy(init[i]) && "name" in init[i] && Truthy(init[i]["name"]) && v == init[i]["name"];
        assert ps[i] == init[i];
      }
    }
  }

  lemma TransitNamesSnoc(view: seq<Dict>, t: Dict)
    ensures TransitNames(view + [t]) ==
      TransitNames(view) + (if Truthy(Get(t, "name", VStr(""))) then [Get(t, "name", VStr(""))] else [])
  {
    assert (view + [t])[..|view|] == view;
  }

  /** The comprehension of `get_transit_names`, as a loop. */
  method GetTransitNamesOf(view: seq<Dict>) returns (names: seq<Value>)
    ensures names == TransitNames(view)
  {
    names := [];
    var i := 0;
    while i < |view|
      invariant 0 <= i <= |view|
      invariant names == TransitNames(view[..i])
    {
      assert view[..i + 1][..i] == view[..i];
      var name := Get(view[i], "name", VStr(""));
      if Truthy(name) {
        names := names + [name];
      }
      i := i + 1;
    }
    assert view[..i] == view;
  }

  // ---------------------------------------------------------------------
  // The usage guard

  /** A normal proxy whose `dialer-proxy` equals `name` dials through it. */
  predicate Uses(p: Dict, name: Value)
  {
    !IsTransitProxy(p) && PyEq(Get(p, "dialer-proxy", VNull), name)
  }

  /** How a user is reported: its name, or `代理#<idx>` when it has none. */
  function UserLabel(p: Dict, idx: nat): Value
  {
    Get(p, "name", VStr("代理#" + Decimal(idx)))
  }

  /** Every label is a string, so `", ".join` of them succeeds. */
  predicate AllStrings(labels: seq<Value>)
  {
    forall i :: 0 <= i < |labels| ==> labels[i].VStr?
  }

  /** `_check_transit_usage(config, transit_name, exclude_index)` */
  function Users(ps: seq<Dict>, name: Value, exclude: int): seq<Value>
  {
    if |ps| == 0 then []
    else
      var idx := |ps| - 1;
      Users(ps[..idx], name, exclude) +
        (if idx != exclude && Uses(ps[idx], name) then [UserLabel(ps[idx], idx)] else [])
  }

  /** The usage list is empty exactly when no record other than the excluded
      one dials through `name`; every entry labels such a record. */
  lemma {:induction false} UsersSpec(ps: seq<Dict>, name: Value, exclude: int)
    ensures |Users(ps, name, exclude)| <= |ps|
    ensures |Users(ps, name, exclude)| == 0 <==>
      forall i :: 0 <= i < |ps| && i != exclude ==> !Uses(ps[i], name)
    ensures forall v :: v in Users(ps, name, exclude) ==>
      exists i :: 0 <= i < |ps| && i != exclude && Uses(ps[i], name) && v == UserLabel(ps[i], i)
    decreases |ps|
  {
    if |ps| > 0 {
      var idx := |ps| - 1;
      var init := ps[..idx];
      UsersSpec(init, name, exclude);
      assert forall i :: 0 <= i < idx ==> init[i] == ps[i];
      if |Users(ps, name, exclude)| == 0 {
        forall i | 0 <= i < |ps| && i != exclude
          ensures !Uses(ps[i], name)
        {
          if i < idx {
            assert init[i] == ps[i];
          }
        }
      }
    }
  }

  /** The loop of `_check_transit_usage`. */
  method CheckTransitUsage(ps: seq<Dict>, name: Value, exclude: int) returns (usedBy: seq<Value>)
    ensures usedBy == Users(ps, name, exclude)
  {
    usedBy := [];
    var i := 0;
    while i < |ps|
      invariant 0 <= i <= |ps|
      invariant usedBy == Users(ps[..i], name, exclude)
    {
      assert ps[..i + 1][..i] == ps[..i];
      var p := ps[i];
      if i != exclude {
        if !IsTransitProxy(p) && PyEq(Get(p, "dialer-proxy", VNull), name) {
          usedBy := usedBy + [Get(p, "name", VStr("代理#" + Decimal(i)))];
        }
      }
      i := i + 1;
    }
    assert ps[..i] == ps;
  }

  /** A proxy named by a YAML number (`name: 8080`) that dials through the
      transit `T` is reported by its number, which `", ".join` refuses. */
  lemma NumericUserLabel()
    ensures var t: Dict := map["name" := VStr("T"), "IsBase" := VBool(true)];
      var u: Dict := map["name" := VInt(8080), "dialer-proxy" := VStr("T")];
      Users([t, u], VStr("T"), 0) == [VInt(8080)] && !AllStrings(Users([t, u], VStr("T"), 0))
  {
    var t: Dict := map["name" := VStr("T"), "IsBase" := VBool(true)];
    var u: Dict := map["name" := VInt(8080), "dialer-proxy" := VStr("T")];
    assert [t, u][..1] == [t] && [t][..0] == [];
    assert !IsTransitProxy(u) by {
      assert Get(u, "IsBase", VNull) == VNull;
    }
    assert Uses(u, VStr("T"));
    assert UserLabel(u, 1) == VInt(8080);
    assert Users([t], VStr("T"), 0) == [];
    assert Users([t, u], VStr("T"), 0) == Users([t], VStr("T"), 0) + [VInt(8080)];
    assert !Users([t, u], VStr("T"), 0)[0].VStr?;
  }

  /** After a guarded delete of the record at `k` no remaining record dials
      through the deleted line's name. */
  lemma GuardedDeleteLeavesNoUser(ps: seq<Dict>, k: nat, name: Value)
    requires k < |ps| && |Users(ps, name, k)| == 0
    ensures forall i :: 0 <= i < |Without(ps, k)| ==> !Uses(Without(ps, k)[i], name)
  {
    UsersSpec(ps, name, k);
    var qs := Without(ps, k);
    forall i | 0 <= i < |qs|
      ensures !Uses(qs[i], name)
    {
      var i' := if i < k then i else i + 1;
      assert qs[i] == ps[i'];
    }
  }

  // ---------------------------------------------------------------------
  // Replacing a record by one of the same kind

  /** Replacing a record by one of the same kind moves no record between the
      two views: the positions of both kinds stay the same, and the other
      kind's records are untouched. */
  lemma {:induction false} ReplaceSameKind(ps: seq<Dict>, k: nat, p: Dict, transit: bool)
    requires k < |ps| && IsTransitProxy(ps[k]) == IsTransitProxy(p)
    ensures Positions(ps[k := p], transit) == Positions(ps, transit)
    ensures IsTransitProxy(p) != transit ==> OfKind(ps[k := p], transit) == OfKind(ps, transit)
    decreases |ps|
  {
    var n := |ps|;
    var qs := ps[k := p];
    if k == n - 1 {
      assert qs[..n - 1] == ps[..n - 1];
    } else {
      assert qs[..n - 1] == ps[..n - 1][k := p];
      ReplaceSameKind(ps[..n - 1], k, p, transit);
    }
  }

  // ---------------------------------------------------------------------
  // Device push

  /** What `_push_config_to_devices` reports. */
  datatype PushReport =
    | NoDevices
    | AllPushed(count: nat)
    | PartlyPushed(count: nat, total: nat)
    | NonePushed

  predicate PushSucceeded(r: PushReport)
  {
    r.AllPushed? || r.PartlyPushed?
  }

  function CountTrue(results: seq<bool>): nat
  {
    if |results| == 0 then 0
    else CountTrue(results[..|results| - 1]) + (if results[|results| - 1] then 1 else 0)
  }

  /** The report for one outcome per connected device. */
  function Tally(results: seq<bool>): PushReport
  {
    if |results| == 0 then NoDevices
    else
      var count := CountTrue(results);
      if count == |results| then AllPushed(count)
      else if count > 0 then PartlyPushed(count, |results|)
      else NonePushed
  }

  lemma {:induction false} CountTrueSpec(results: seq<bool>)
    ensures CountTrue(results) <= |results|
    ensures CountTrue(results) == 0 <==> forall i :: 0 <= i < |results| ==> !results[i]
    ensures CountTrue(results) == |results| <==> forall i :: 0 <= i < |results| ==> results[i]
    decreases |results|
  {
    if |results| > 0 {
      var init := results[..|results| - 1];
      CountTrueSpec(init);
      assert forall i :: 0 <= i < |init| ==> init[i] == results[i];
    }
  }

  /** A push succeeds exactly when some device took the file; it reports
      "all" exactly when every device of a non-empty list did. */
  lemma TallySpec(results: seq<bool>)
    ensures PushSucceeded(Tally(results)) <==> exists i :: 0 <= i < |results| && results[i]
    ensures Tally(results).AllPushed? <==> |results| > 0 && forall i :: 0 <= i < |results| ==> results[i]
    ensures Tally(results).PartlyPushed? ==> 0 < Tally(results).count < Tally(results).total == |results|
    ensures Tally(results) == NoDevices <==> |results| == 0
  {
    CountTrueSpec(results);
  }

  /** The tally of `_push_config_to_devices`; `results` holds the outcome of
      `push_file` for each connected device, in order. */
  method PushTally(results: seq<bool>) returns (report: PushReport)
    ensures report == Tally(results)
  {
    if |results| == 0 {
      return NoDevices;
    }
    var successCount := 0;
    var i := 0;
    while i < |results|
      invariant 0 <= i <= |results|
      invariant successCount == CountTrue(results[..i])
    {
      assert results[..i + 1][..i] == results[..i];
      if results[i] {
        successCount := successCount + 1;
      }
      i := i + 1;
    }
    assert results[..i] == results;
    if successCount == |results| {
      report := AllPushed(successCount);
    } else if successCount > 0 {
      report := PartlyPushed(successCount, |results|);
    } else {
      report := NonePushed;
    }
  }

  // ---------------------------------------------------------------------
  // The service

  /** `TransitService` on the default configuration `doc`. An operation that
      fails leaves it as it was; one that succeeds has synchronised
      `proxy-groups` with the new proxy list. */
  class TransitService {
    const doc: Document

    constructor (doc: Document)
      ensures this.doc == doc
    {
      this.doc := doc;
    }

    /** `get_all_transits()` */
    method GetAllTransits() returns (view: seq<Dict>)
      ensures view == KindView(doc.proxies, true)
    {
      view := GetKindView(doc.proxies, true);
    }

    /** `get_transit_names()` */
    method GetTransitNames() returns (names: seq<Value>)
      ensures names == TransitNames(KindView(doc.proxies, true))
    {
      var view := GetAllTransits();
      names := GetTransitNamesOf(view);
    }

    /** `add_transit(data)`: the name is checked against every record,
        transit or not, with no exception for an empty name. */
    method AddTransit(data: Dict) returns (r: Result<Dict, TransitError>)
      modifies doc
      ensures StrField(data, "name").None? ==> r == Err(NameNotString)
      ensures StrField(data, "name").Some? ==>
        var name := Strip(StrField(data, "name").value);
        (NameInUse(old(doc.proxies), name, None) ==> r == Err(DuplicateName(name))) &&
        (!NameInUse(old(doc.proxies), name, None) ==> r == Ok(BuildTransitConfig(data)))
      ensures r.Err? ==> doc.proxies == old(doc.proxies) && doc.groups == old(doc.groups)
      ensures r.Ok? ==>
        doc.proxies == old(doc.proxies) + [r.value] &&
        doc.groups == SyncedGroups(old(doc.groups), ProxyNames(doc.proxies))
    {
      var rawName := StrField(data, "name");
      if rawName.None? {
        return Err(NameNotString);
      }
      var name := Strip(rawName.value);
      var taken := CheckNameExists(doc.proxies, name, None);
      if taken {
        return Err(DuplicateName(name));
      }
      var p := BuildTransitConfig(data);
      doc.proxies := doc.proxies + [p];
      UpdateProxyGroups(doc);
      return Ok(p);
    }

    /** `update_transit(index, data)`: `index` is a position in the view of
        transit lines, mapped back through `_index`. */
    method UpdateTransit(index: int, data: Dict) returns (r: Result<Dict, TransitError>)
      modifies doc
      ensures !(0 <= index < |Positions(old(doc.proxies), true)|) ==> r == Err(NoSuchTransit)
      ensures 0 <= index < |Positions(old(doc.proxies), true)| ==>
        var k := Positions(old(doc.proxies), true)[index];
        (StrField(data, "name").None? ==> r == Err(NameNotString)) &&
        (StrField(data, "name").Some? ==>
          var name := Strip(StrField(data, "name").value);
          (NameInUse(old(doc.proxies), name, Some(k)) ==> r == Err(DuplicateName(name))) &&
          (!NameInUse(old(doc.proxies), name, Some(k)) ==> r == Ok(BuildTransitConfig(data))))
      ensures r.Err? ==> doc.proxies == old(doc.proxies) && doc.groups == old(doc.groups)
      ensures r.Ok? ==>
        0 <= index < |Positions(old(doc.proxies), true)| &&
        var k := Positions(old(doc.proxies), true)[index];
        k < |old(doc.proxies)| && IsTransitProxy(old(doc.proxies)[k]) &&
        doc.proxies == old(doc.proxies)[k := r.value] &&
        doc.groups == SyncedGroups(old(doc.groups), ProxyNames(doc.proxies))
    {
      var view := GetAllTransits();
      KindViewSpec(doc.proxies, true);
      if index < 0 || index >= |view| {
        return Err(NoSuchTransit);
      }
      var tagged: Dict := view[index];
      var original := tagged["_index"].i;
      var rawName := StrField(data, "name");
      if rawName.None? {
        return Err(NameNotString);
      }
      var name := Strip(rawName.value);
      var taken := CheckNameExists(doc.proxies, name, Some(original));
      if taken {
        return Err(DuplicateName(name));
      }
      var p := BuildTransitConfig(data);
      doc.proxies := doc.proxies[original := p];
      UpdateProxyGroups(doc);
      return Ok(p);
    }

    /** `delete_transit(index)`: refused while another record dials through
        the line's (non-empty) name. */
    method DeleteTransit(index: int) returns (r: Result<Dict, TransitError>)
      modifies doc
      ensures !(0 <= index < |Positions(old(doc.proxies), true)|) ==> r == Err(NoSuchTransit)
      ensures 0 <= index < |Positions(old(doc.proxies), true)| ==>
        var k := Positions(old(doc.proxies), true)[index];
        k < |old(doc.proxies)| &&
        var name := Get(old(doc.proxies)[k], "name", VStr(""));
        (Truthy(name) && |Users(old(doc.proxies), name, k)| > 0 ==>
          r == if AllStrings(Users(old(doc.proxies), name, k)) then Err(InUse(Users(old(doc.proxies), name, k)))
               else Err(LabelNotString)) &&
        (!Truthy(name) || |Users(old(doc.proxies), name, k)| == 0 ==> r == Ok(old(doc.proxies)[k]))
      ensures r.Err? ==> doc.proxies == old(doc.proxies) && doc.groups == old(doc.groups)
      ensures r.Ok? ==>
        0 <= index < |Positions(old(doc.proxies), true)| &&
        var k := Positions(old(doc.proxies), true)[index];
        k < |old(doc.proxies)| && IsTransitProxy(old(doc.proxies)[k]) &&
        doc.proxies == Without(old(doc.proxies), k) &&
        doc.groups == SyncedGroups(old(doc.groups), ProxyNames(doc.proxies))
    {
      var view := GetAllTransits();
      KindViewSpec(doc.proxies, true);
      if index < 0 || index >= |view| {
        return Err(NoSuchTransit);
      }
      var tagged: Dict := view[index];
      var original := tagged["_index"].i;
      var deleted := doc.proxies[original];
      var proxyName := Get(deleted, "name", VStr(""));
      if Truthy(proxyName) {
        var usedBy := CheckTransitUsage(doc.proxies, proxyName, original);
        if |usedBy| > 0 {
          if !AllStrings(usedBy) {
            return Err(LabelNotString);
          }
          return Err(InUse(usedBy));
        }
      }
      doc.proxies := Without(doc.proxies, original);
      UpdateProxyGroups(doc);
      return Ok(deleted);
    }
  }

  /** What a successful `update_transit` or `delete_transit` does to the
      normal proxies: nothing. */
  lemma TransitEditsKeepNormals(ps: seq<Dict>, index: nat, p: Dict)
    requires index < |Positions(ps, true)| && IsTransitProxy(p)
    ensures Positions(ps, true)[index] < |ps|
    ensures OfKind(ps[Positions(ps, true)[index] := p], false) == OfKind(ps, false)
    ensures OfKind(Without(ps, Positions(ps, true)[index]), false) == OfKind(ps, false)
  {
    PositionsSpec(ps, true);
    ReplaceSameKind(ps, Positions(ps, true)[index], p, false);
    RemoveOfKind(ps, true, index);
  }
}
