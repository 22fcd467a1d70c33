/** The proxy-record helpers of `utils/yaml_helper.py`: which records are
    transit lines, how a record is shown, and the text the configuration
    writer emits for the `proxies:` and `proxy-groups:` sections. The JSON
    text of one record (`json.dumps`) is kept as the record itself. */
module YamlHelper {
  import opened Values
  import opened Text

  // ---------------------------------------------------------------------
  // Classification

  /** `str(v).lower() == 'true'`: holds for `True` and for a string spelling
      "true" in any case; `str` of `None`, a number, a list or a mapping
      never reads "true". */
  predicate StrIsTrue(v: Value)
  {
    match v
    case VBool(b) => b
    case VStr(s) => Lower(s) == "true"
    case _ => false
  }

  /** `is_transit_proxy(v)`: a mapping whose `IsBase` is `True`, `'true'` or
      stringifies to "true" ignoring case. */
  predicate IsTransit(v: Value)
  {
    v.VDict? &&
    var isBase := Get(v.fields, "IsBase", VBool(false));
    PyEq(isBase, VBool(true)) || isBase == VStr("true") || StrIsTrue(isBase)
  }

  /** The three tests of `is_transit_proxy` amount to: the record is a
      mapping and its `IsBase` is `True`, the integer 1, or a string that
      reads "true" in any case. A missing `IsBase` means a normal proxy. */
  lemma IsTransitCases(v: Value)
    ensures IsTransit(v) <==>
      v.VDict? && "IsBase" in v.fields &&
      (v.fields["IsBase"] == VBool(true) || v.fields["IsBase"] == VInt(1) ||
       (v.fields["IsBase"].VStr? && Lower(v.fields["IsBase"].s) == "true"))
  {
    if v.VDict? && "IsBase" in v.fields {
      var b := v.fields["IsBase"];
      if b.VStr? && b.s == "true" {
        assert Lower(b.s) == "true";
      }
    }
  }

  predicate IsTransitProxy(p: Dict)
  {
    IsTransit(VDict(p))
  }

  /** `format_proxy_for_display(v)`: mappings as they are, strings decoded as
      JSON (`parseJson` stands for `json.loads`, `None` for a decode error),
      anything else unchanged. */
  function FormatForDisplay(v: Value, parseJson: string -> Option<Value>): (r: Value)
    ensures v.VDict? ==> r == v
    ensures v.VStr? && parseJson(v.s).None? ==> r == VDict(map["raw" := v])
    ensures v.VStr? && parseJson(v.s).Some? ==> r == parseJson(v.s).value
    ensures !v.VStr? ==> r == v
  {
    if v.VStr? then
      match parseJson(v.s)
      case Some(decoded) => decoded
      case None => VDict(map["raw" := v])
    else v
  }

  // ---------------------------------------------------------------------
  // Transit / normal views of the proxy list

  /** The positions in `ps` of the transit (`transit == true`) or normal
      records, in list order. */
  function Positions(ps: seq<Dict>, transit: bool): seq<nat>
  {
    if |ps| == 0 then []
    else
      var last := if IsTransitProxy(ps[|ps| - 1]) == transit then [|ps| - 1] else [];
      Positions(ps[..|ps| - 1], transit) + last
  }

  /** `[p for p in ps if is_transit_proxy(p)]`, and its complement. */
  function OfKind(ps: seq<Dict>, transit: bool): seq<Dict>
  {
    if |ps| == 0 then []
    else
      var last := if IsTransitProxy(ps[|ps| - 1]) == transit then [ps[|ps| - 1]] else [];
      OfKind(ps[..|ps| - 1], transit) + last
  }

  /** The positions of one kind are increasing, point at records of that
      kind, miss none of them, and `OfKind` lists exactly those records. */
  lemma {:induction false} PositionsSpec(ps: seq<Dict>, transit: bool)
    ensures forall j :: 0 <= j < |Positions(ps, transit)| ==>
      Positions(ps, transit)[j] < |ps| &&
      IsTransitProxy(ps[Positions(ps, transit)[j]]) == transit
    ensures forall j, k :: 0 <= j < k < |Positions(ps, transit)| ==>
      Positions(ps, transit)[j] < Positions(ps, transit)[k]
    ensures forall i :: 0 <= i < |ps| && IsTransitProxy(ps[i]) == transit ==>
      i in Positions(ps, transit)
    ensures |OfKind(ps, transit)| == |Positions(ps, transit)|
    ensures forall j :: 0 <= j < |Positions(ps, transit)| ==>
      OfKind(ps, transit)[j] == ps[Positions(ps, transit)[j]]
    decreases |ps|
  {
    if |ps| > 0 {
      var init := ps[..|ps| - 1];
      PositionsSpec(init, transit);
      var pos := Positions(ps, transit);
      assert forall j :: 0 <= j < |Positions(init, transit)| ==> pos[j] == Positions(init, transit)[j];
      forall i | 0 <= i < |ps| && IsTransitProxy(ps[i]) == transit
        ensures i in pos
      {
        if i < |ps| - 1 {
          assert init[i] == ps[i];
        }
      }
    }
  }

  /** Transit and normal records split the list: every record is in exactly
      one of the two filters, nothing is lost or duplicated. */
  lemma {:induction false} KindsPartition(ps: seq<Dict>)
    ensures |OfKind(ps, true)| + |OfKind(ps, false)| == |ps|
    ensures multiset(OfKind(ps, true)) + multiset(OfKind(ps, false)) == multiset(ps)
    decreases |ps|
  {
    if |ps| > 0 {
      var init := ps[..|ps| - 1];
      var p := ps[|ps| - 1];
      assert |OfKind(init, true)| + |OfKind(init, false)| == |init| &&
        multiset(OfKind(init, true)) + multiset(OfKind(init, false)) == multiset(init) by {
        KindsPartition(init);
      }
      assert multiset(ps) == multiset(init) + multiset{p} by {
        assert ps == init + [p];
      }
      if IsTransitProxy(p) {
        assert OfKind(ps, true) == OfKind(init, true) + [p];
        assert OfKind(ps, false) == OfKind(init, false);
      } else {
        assert OfKind(ps, true) == OfKind(init, true);
        assert OfKind(ps, false) == OfKind(init, false) + [p];
      }
    }
  }

  // ---------------------------------------------------------------------
  // The `proxies:` section

  /** One line of the emitted `proxies:` section. An `Entry` is the line
      `  - <json of the record>`; `Literal` lines are written as they are. */
  datatype SectionLine =
    | TransitHeading              // "  # 1. 中转基座 (Trojan)"
    | NormalHeading(region: Value) // "  # 2. <region name>出口 (绑定中转)"
    | Entry(proxy: Dict)
    | Literal(text: string)

  /** `{k: v for k, v in proxy.items() if k != '_index'}` */
  function WithoutIndex(p: Dict): Dict
  {
    p - {"_index"}
  }

  function Entries(ps: seq<Dict>): seq<SectionLine>
  {
    seq(|ps|, i requires 0 <= i < |ps| => Entry(WithoutIndex(ps[i])))
  }

  /** Display names of the region codes the heading knows. */
  const RegionNames: map<string, string> :=
    map["HK" := "香港", "GB" := "英国", "SG" := "新加坡", "MY" := "马来西亚",
        "PH" := "菲律宾", "FR" := "法国"]

  /** A list or a mapping cannot be a dictionary key: looking one up
      raises `TypeError`. */
  predicate Unhashable(v: Value)
  {
    v.VList? || v.VDict?
  }

  /** The heading region: the first normal record's `Region`, else its
      `region`, else `'HK'`, shown by name when the code is known. Looking
      an unhashable region up in the name table raises: no heading. */
  function HeadingRegion(first: Dict): Option<Value>
  {
    var region := Or(Or(Get(first, "Region", VNull), Get(first, "region", VNull)), VStr("HK"));
    if Unhashable(region) then None
    else if region.VStr? && region.s in RegionNames then Some(VStr(RegionNames[region.s]))
    else Some(region)
  }

  /** A truthy `Region` wins over `region`; with neither the heading is Hong
      Kong's; a code the heading does not know is shown as it is; and there
      is no heading exactly when the region chosen is a list or a mapping. */
  lemma HeadingRegionSpec(first: Dict, code: string)
    ensures !Truthy(Get(first, "Region", VNull)) && !Truthy(Get(first, "region", VNull)) ==>
      HeadingRegion(first) == Some(VStr("香港"))
    ensures Get(first, "Region", VNull) == VStr(code) && code != "" ==>
      HeadingRegion(first) == Some(if code in RegionNames then VStr(RegionNames[code]) else VStr(code))
    ensures !Truthy(Get(first, "Region", VNull)) && Get(first, "region", VNull) == VStr(code) && code != "" ==>
      HeadingRegion(first) == Some(if code in RegionNames then VStr(RegionNames[code]) else VStr(code))
    ensures HeadingRegion(first).None? <==>
      var upper, lower := Get(first, "Region", VNull), Get(first, "region", VNull);
      (Truthy(upper) && Unhashable(upper)) || (!Truthy(upper) && Truthy(lower) && Unhashable(lower))
  { }

  /** `_generate_proxies_section(config)`, as a list of lines; `None` when
      it raises on the heading region. */
  function ProxiesSection(ps: seq<Dict>): Option<seq<SectionLine>>
  {
    var transit := OfKind(ps, true);
    var normal := OfKind(ps, false);
    if |normal| > 0 && HeadingRegion(normal[0]).None? then None
    else Some(
      (if |transit| > 0 then [TransitHeading] + Entries(transit) + [Literal("")] else []) +
      (if |normal| > 0 then [NormalHeading(HeadingRegion(normal[0]).value)] + Entries(normal) + [Literal(" ")] else []))
  }

  /** The records of the `Entry` lines, in order. */
  function EntryProxies(lines: seq<SectionLine>): seq<Dict>
  {
    if |lines| == 0 then []
    else (if lines[0].Entry? then [lines[0].proxy] else []) + EntryProxies(lines[1..])
  }

  function StripIndexes(ps: seq<Dict>): seq<Dict>
  {
    seq(|ps|, i requires 0 <= i < |ps| => WithoutIndex(ps[i]))
  }

  lemma {:induction false} EntryProxiesAppend(a: seq<SectionLine>, b: seq<SectionLine>)
    ensures EntryProxies(a + b) == EntryProxies(a) + EntryProxies(b)
    decreases |a|
  {
    if |a| == 0 {
      assert a + b == b;
    } else {
      var head := if a[0].Entry? then [a[0].proxy] else [];
      assert EntryProxies(a + b) == head + EntryProxies(a[1..] + b) by {
        assert (a + b)[0] == a[0];
        assert (a + b)[1..] == a[1..] + b;
      }
      assert EntryProxies(a[1..] + b) == EntryProxies(a[1..]) + EntryProxies(b) by {
        EntryProxiesAppend(a[1..], b);
      }
      assert EntryProxies(a) == head + EntryProxies(a[1..]);
    }
  }

  lemma {:induction false} EntryProxiesOfEntries(ps: seq<Dict>)
    ensures EntryProxies(Entries(ps)) == StripIndexes(ps)
    decreases |ps|
  {
    if |ps| > 0 {
      assert Entries(ps)[1..] == Entries(ps[1..]);
      EntryProxiesOfEntries(ps[1..]);
      assert StripIndexes(ps) == [WithoutIndex(ps[0])] + StripIndexes(ps[1..]);
    }
  }

  lemma EntriesSnoc(ps: seq<Dict>, i: nat)
    requires i < |ps|
    ensures Entries(ps[..i + 1]) == Entries(ps[..i]) + [Entry(WithoutIndex(ps[i]))]
  {
  }

  /** The section raises exactly when there is a normal record and the
      first one's region is a list or a mapping. Otherwise reading the entry
      lines back gives every transit record, then every normal record, each
      in list order and each without its `_index`: exactly one entry line
      per record. */
  lemma ProxiesSectionEntries(ps: seq<Dict>)
    ensures ProxiesSection(ps).None? <==> |OfKind(ps, false)| > 0 && HeadingRegion(OfKind(ps, false)[0]).None?
    ensures ProxiesSection(ps).Some? ==>
      EntryProxies(ProxiesSection(ps).value) == StripIndexes(OfKind(ps, true)) + StripIndexes(OfKind(ps, false))
    ensures ProxiesSection(ps).Some? ==> |EntryProxies(ProxiesSection(ps).value)| == |ps|
    ensures ProxiesSection(ps).Some? ==> forall j :: 0 <= j < |EntryProxies(ProxiesSection(ps).value)| ==>
      "_index" !in EntryProxies(ProxiesSection(ps).value)[j]
  {
    if ProxiesSection(ps).None? {
      return;
    }
    var x, y := StripIndexes(OfKind(ps, true)), StripIndexes(OfKind(ps, false));
    var e := EntryProxies(ProxiesSection(ps).value);
    assert e == x + y by {
      SectionBlocks(ps);
    }
    assert |x| + |y| == |ps| by {
      KindsPartition(ps);
    }
    forall j | 0 <= j < |e|
      ensures "_index" !in e[j]
    {
      if j < |x| {
        assert e[j] == x[j];
      } else {
        assert e[j] == y[j - |x|];
      }
    }
  }

  /** The transit block opens with its heading; the normal block's heading,
      naming the first normal record's region, follows the transit block's
      entries and spacer. */
  lemma SectionHeadings(ps: seq<Dict>)
    ensures ProxiesSection(ps).Some? && |OfKind(ps, true)| > 0 ==> ProxiesSection(ps).value[0] == TransitHeading
    ensures ProxiesSection(ps).Some? && |OfKind(ps, false)| > 0 ==>
      var h := if |OfKind(ps, true)| > 0 then |OfKind(ps, true)| + 2 else 0;
      HeadingRegion(OfKind(ps, false)[0]).Some? && h < |ProxiesSection(ps).value| &&
      ProxiesSection(ps).value[h] == NormalHeading(HeadingRegion(OfKind(ps, false)[0]).value)
  {
    var transit := OfKind(ps, true);
    var normal := OfKind(ps, false);
    if ProxiesSection(ps).Some? {
      var a := if |transit| > 0 then [TransitHeading] + Entries(transit) + [Literal("")] else [];
      var b := if |normal| > 0 then [NormalHeading(HeadingRegion(normal[0]).value)] + Entries(normal) + [Literal(" ")] else [];
      assert ProxiesSection(ps).value == a + b;
      assert |a| == (if |transit| > 0 then |transit| + 2 else 0);
    }
  }

  lemma SectionBlocks(ps: seq<Dict>)
    requires ProxiesSection(ps).Some?
    ensures EntryProxies(ProxiesSection(ps).value) ==
      StripIndexes(OfKind(ps, true)) + StripIndexes(OfKind(ps, false))
  {
    var transit := OfKind(ps, true);
    var normal := OfKind(ps, false);
    var a := if |transit| > 0 then [TransitHeading] + Entries(transit) + [Literal("")] else [];
    var b := if |normal| > 0 then [NormalHeading(HeadingRegion(normal[0]).value)] + Entries(normal) + [Literal(" ")] else [];
    assert EntryProxies(ProxiesSection(ps).value) == EntryProxies(a) + EntryProxies(b) by {
      assert ProxiesSection(ps).value == a + b;
      EntryProxiesAppend(a, b);
    }
    assert EntryProxies(a) == StripIndexes(transit) by {
      if |transit| > 0 {
        BlockEntries(TransitHeading, transit, "");
      }
    }
    assert EntryProxies(b) == StripIndexes(normal) by {
      if |normal| > 0 {
        BlockEntries(NormalHeading(HeadingRegion(normal[0]).value), normal, " ");
      }
    }
  }

  lemma BlockEntries(heading: SectionLine, ps: seq<Dict>, spacer: string)
    requires !heading.Entry?
    ensures EntryProxies([heading] + Entries(ps) + [Literal(spacer)]) == StripIndexes(ps)
  {
    EntryProxiesOfEntries(ps);
    EntryProxiesAppend([heading] + Entries(ps), [Literal(spacer)]);
    EntryProxiesAppend([heading], Entries(ps));
    assert EntryProxies([Literal(spacer)]) == [];
    assert EntryProxies([heading]) == [];
  }

  /** Dropping `_index` keeps every other key and its value. */
  lemma WithoutIndexKeeps(p: Dict)
    ensures "_index" !in WithoutIndex(p)
    ensures forall k :: k in p && k != "_index" ==> k in WithoutIndex(p) && WithoutIndex(p)[k] == p[k]
    ensures WithoutIndex(p).Keys == p.Keys - {"_index"}
  {
  }

  /** `_generate_proxies_section`: the transit block, then the normal block,
      each a heading, one line per record and a spacer line; `None` when the
      heading lookup raises, which discards the lines built so far. */
  method GenerateProxiesSection(ps: seq<Dict>) returns (section: Option<seq<SectionLine>>)
    ensures section == ProxiesSection(ps)
  {
    var transit := OfKind(ps, true);
    var normal := OfKind(ps, false);
    var lines := [];
    if |transit| > 0 {
      lines := AppendEntries(lines + [TransitHeading], transit);
      lines := lines + [Literal("")];
    }
    var head := lines;
    assert head == if |transit| > 0 then [TransitHeading] + Entries(transit) + [Literal("")] else [];
    if |normal| > 0 {
      var region := HeadingRegion(normal[0]);
      if region.None? {
        return None;
      }
      lines := AppendEntries(lines + [NormalHeading(region.value)], normal);
      lines := lines + [Literal(" ")];
      assert lines == head + ([NormalHeading(region.value)] + Entries(normal) + [Literal(" ")]);
    } else {
      assert lines == head + [];
    }
    assert ProxiesSection(ps).Some?;
    assert ProxiesSection(ps).value == lines;
    return Some(lines);
  }

  /** The loop over one block's records: an entry line per record, in
      order, without its `_index`. */
  method AppendEntries(lines: seq<SectionLine>, ps: seq<Dict>) returns (out: seq<SectionLine>)
    ensures out == lines + Entries(ps)
  {
    out := lines;
    var i := 0;
    while i < |ps|
      invariant 0 <= i <= |ps|
      invariant out == lines + Entries(ps[..i])
    {
      EntriesSnoc(ps, i);
      out := out + [Entry(WithoutIndex(ps[i]))];
      i := i + 1;
    }
    assert ps[..i] == ps;
  }

  /** The banner and key `_write_proxies` writes before the records. */
  const WriterHead: seq<SectionLine> :=
    [Literal("\n# ==================== 节点列表 ====================\n"), Literal("proxies:\n")]

  /** `_write_proxies`: the banner and `proxies:` key, then either a single
      blank line for an empty list or one entry per record in list order. */
  method WriteProxies(ps: seq<Dict>) returns (out: seq<SectionLine>)
    ensures |ps| == 0 ==> out == WriterHead + [Literal(" \n")]
    ensures |ps| > 0 ==> out == WriterHead + Entries(ps)
  {
    out := WriterHead;
    if |ps| == 0 {
      out := out + [Literal(" \n")];
      return;
    }
    var i := 0;
    while i < |ps|
      invariant 0 <= i <= |ps|
      invariant out == WriterHead + Entries(ps[..i])
    {
      assert Entries(ps[..i + 1]) == Entries(ps[..i]) + [Entry(WithoutIndex(ps[i]))];
      out := out + [Entry(WithoutIndex(ps[i]))];
      i := i + 1;
    }
    assert ps[..i] == ps;
  }

  /** A normal record whose `Region` is the list `['HK']`: the section
      generator raises, while the writer still writes the record. */
  lemma ListRegionRaises()
    ensures var p: Dict := map["name" := VStr("a"), "Region" := VList([VStr("HK")])];
      ProxiesSection([p]).None? && |EntryProxies(Entries([p]))| == 1
  {
    var p: Dict := map["name" := VStr("a"), "Region" := VList([VStr("HK")])];
    assert !IsTransitProxy(p) by {
      assert Get(p, "IsBase", VNull) == VNull;
    }
    assert [p][..0] == [];
    assert OfKind([p], false) == [p];
    assert HeadingRegion(p).None?;
    EntryProxiesOfEntries([p]);
  }

  /** The writer keeps the file order while the section generator puts
      transit lines first; where the generator does not raise, both emit the
      same records, each exactly once. */
  lemma WriterAndSectionAgree(ps: seq<Dict>)
    ensures ProxiesSection(ps).Some? ==>
      multiset(EntryProxies(Entries(ps))) == multiset(EntryProxies(ProxiesSection(ps).value))
  {
    EntryProxiesOfEntries(ps);
    ProxiesSectionEntries(ps);
    KindsPartitionStripped(ps);
  }

  lemma {:induction false} KindsPartitionStripped(ps: seq<Dict>)
    ensures multiset(StripIndexes(OfKind(ps, true))) + multiset(StripIndexes(OfKind(ps, false))) ==
      multiset(StripIndexes(ps))
    decreases |ps|
  {
    if |ps| > 0 {
      var init := ps[..|ps| - 1];
      var p := ps[|ps| - 1];
      KindsPartitionStripped(init);
      var w := WithoutIndex(p);
      assert multiset(StripIndexes(ps)) == multiset(StripIndexes(init)) + multiset{w} by {
        assert ps == init + [p];
        StripIndexesSnoc(init, p);
      }
      var k := IsTransitProxy(p);
      assert multiset(StripIndexes(OfKind(ps, k))) == multiset(StripIndexes(OfKind(init, k))) + multiset{w} by {
        StripIndexesSnoc(OfKind(init, k), p);
      }
      assert OfKind(ps, !k) == OfKind(init, !k);
      if k {
        assert multiset(StripIndexes(OfKind(ps, true))) == multiset(StripIndexes(OfKind(init, true))) + multiset{w};
        assert multiset(StripIndexes(OfKind(ps, false))) == multiset(StripIndexes(OfKind(init, false)));
      } else {
        assert multiset(StripIndexes(OfKind(ps, false))) == multiset(StripIndexes(OfKind(init, false))) + multiset{w};
        assert multiset(StripIndexes(OfKind(ps, true))) == multiset(StripIndexes(OfKind(init, true)));
      }
    }
  }

  lemma StripIndexesSnoc(xs: seq<Dict>, x: Dict)
    ensures StripIndexes(xs + [x]) == StripIndexes(xs) + [WithoutIndex(x)]
    ensures multiset(StripIndexes(xs + [x])) == multiset(StripIndexes(xs)) + multiset{WithoutIndex(x)}
  {
    assert StripIndexes(xs + [x]) == StripIndexes(xs) + [WithoutIndex(x)];
  }

  // ---------------------------------------------------------------------
  // The `proxy-groups:` section

  /** One line of the emitted `proxy-groups:` section. */
  datatype GroupLine =
    | GroupName(name: Value)   // '  - name: "<name>"'
    | GroupType(kind: Value)   // '    type: <type>'
    | MembersKey               // '    proxies:'
    | Member(member: Value)    // '      - "<member>"'
    | GroupGap                 // '       '

  /** The order in which iterating a mapping yields its keys (Python's
      insertion order, which a `map` does not keep). */
  type KeyOrder = Dict -> seq<string>

  /** `keys` lists the keys of `d`, each once. */
  ghost predicate ListsKeys(keys: KeyOrder, d: Dict)
  {
    (forall k :: k in keys(d) <==> k in d) &&
    forall i, j :: 0 <= i < j < |keys(d)| ==> keys(d)[i] != keys(d)[j]
  }

  /** `for proxy_name in group['proxies']`: a list yields its items, a
      string its characters, a mapping its keys; other values raise
      `TypeError`. */
  function Members(v: Value, keys: KeyOrder): Option<seq<Value>>
  {
    match v
    case VList(xs) => Some(xs)
    case VStr(s) => Some(seq(|s|, i requires 0 <= i < |s| => VStr([s[i]])))
    case VDict(d) => Some(seq(|keys(d)|, i requires 0 <= i < |keys(d)| => VStr(keys(d)[i])))
    case _ => None
  }

  /** A group whose `proxies` is a mapping gets one member line per key:
      the members are exactly its keys, each once. */
  lemma MappingMembers(d: Dict, keys: KeyOrder)
    requires ListsKeys(keys, d)
    ensures Members(VDict(d), keys).Some?
    ensures forall m: Value :: m in Members(VDict(d), keys).value <==> m.VStr? && m.s in d
    ensures forall i, j :: 0 <= i < j < |Members(VDict(d), keys).value| ==>
      Members(VDict(d), keys).value[i] != Members(VDict(d), keys).value[j]
  {
    var ms := Members(VDict(d), keys).value;
    forall m: Value | m.VStr? && m.s in d
      ensures m in ms
    {
      var i :| 0 <= i < |keys(d)| && keys(d)[i] == m.s;
      assert ms[i] == m;
    }
  }

  function MemberLines(ms: seq<Value>): seq<GroupLine>
  {
    seq(|ms|, i requires 0 <= i < |ms| => Member(ms[i]))
  }

  /** The lines of one group, or `None` where `group["name"]`,
      `group["type"]` or the member loop raises. */
  function GroupBlock(g: Value, keys: KeyOrder): Option<seq<GroupLine>>
  {
    if !(g.VDict? && "name" in g.fields && "type" in g.fields) then None
    else
      var head := [GroupName(g.fields["name"]), GroupType(g.fields["type"])];
      if "proxies" !in g.fields then Some(head + [GroupGap])
      else match Members(g.fields["proxies"], keys)
        case None => None
        case Some(ms) => Some(head + [MembersKey] + MemberLines(ms) + [GroupGap])
  }

  /** `_generate_proxy_groups_section`: the blocks of all groups in order, or
      the position of the first group that raises. */
  function GroupsSection(gs: seq<Value>, keys: KeyOrder): Result<seq<GroupLine>, nat>
  {
    if |gs| == 0 then Ok([])
    else match GroupBlock(gs[0], keys)
      case None => Err(0)
      case Some(block) =>
        match GroupsSection(gs[1..], keys)
        case Err(k) => Err(k + 1)
        case Ok(rest) => Ok(block + rest)
  }

  /** The lines emitted so far followed by what the remaining groups emit. */
  function Continue(lines: seq<GroupLine>, done: nat, rest: Result<seq<GroupLine>, nat>): Result<seq<GroupLine>, nat>
  {
    match rest
    case Ok(more) => Ok(lines + more)
    case Err(k) => Err(done + k)
  }

  method GenerateGroupsSection(gs: seq<Value>, keys: KeyOrder) returns (r: Result<seq<GroupLine>, nat>)
    ensures r == GroupsSection(gs, keys)
  {
    var lines: seq<GroupLine> := [];
    var i := 0;
    assert gs[0..] == gs;
    assert Continue([], 0, GroupsSection(gs, keys)) == GroupsSection(gs, keys) by {
      if GroupsSection(gs, keys).Ok? {
        assert [] + GroupsSection(gs, keys).value == GroupsSection(gs, keys).value;
      }
    }
    while i < |gs|
      invariant 0 <= i <= |gs|
      invariant GroupsSection(gs, keys) == Continue(lines, i, GroupsSection(gs[i..], keys))
    {
      var g := gs[i];
      ContinueStep(lines, i, gs, keys);
      if !(g.VDict? && "name" in g.fields && "type" in g.fields) {
        return Err(i);
      }
      var before := lines;
      lines := lines + [GroupName(g.fields["name"]), GroupType(g.fields["type"])];
      if "proxies" in g.fields {
        var members := Members(g.fields["proxies"], keys);
        if members.None? {
          return Err(i);
        }
        var ms := members.value;
        lines := lines + [MembersKey];
        var j := 0;
        while j < |ms|
          invariant 0 <= j <= |ms|
          invariant lines == before + [GroupName(g.fields["name"]), GroupType(g.fields["type"]), MembersKey] + MemberLines(ms[..j])
        {
          assert MemberLines(ms[..j + 1]) == MemberLines(ms[..j]) + [Member(ms[j])];
          lines := lines + [Member(ms[j])];
          j := j + 1;
        }
        assert ms[..j] == ms;
      }
      lines := lines + [GroupGap];
      assert lines == before + GroupBlock(g, keys).value;
      i := i + 1;
    }
    assert gs[i..] == [];
    assert lines + [] == lines;
    return Ok(lines);
  }

  lemma ContinueStep(lines: seq<GroupLine>, i: nat, gs: seq<Value>, keys: KeyOrder)
    requires i < |gs|
    ensures GroupBlock(gs[i], keys).None? ==> Continue(lines, i, GroupsSection(gs[i..], keys)) == Err(i)
    ensures GroupBlock(gs[i], keys).Some? ==>
      Continue(lines, i, GroupsSection(gs[i..], keys)) ==
      Continue(lines + GroupBlock(gs[i], keys).value, i + 1, GroupsSection(gs[i + 1..], keys))
  {
    assert gs[i..][0] == gs[i] && gs[i..][1..] == gs[i + 1..];
    if GroupBlock(gs[i], keys).Some? && GroupsSection(gs[i + 1..], keys).Ok? {
      var b := GroupBlock(gs[i], keys).value;
      assert lines + (b + GroupsSection(gs[i + 1..], keys).value) == lines + b + GroupsSection(gs[i + 1..], keys).value;
    }
  }

  /** What a reader of the section recovers about one group. */
  datatype GroupView = GroupView(name: Value, kind: Value, members: Option<seq<Value>>)

  function ReadMembers(lines: seq<GroupLine>): (seq<Value>, seq<GroupLine>)
  {
    if |lines| > 0 && lines[0].Member? then
      var (ms, rest) := ReadMembers(lines[1..]);
      ([lines[0].member] + ms, rest)
    else ([], lines)
  }

  /** Reads emitted group lines back into names, types and member lists. */
  function ReadGroups(lines: seq<GroupLine>): Option<seq<GroupView>>
    decreases |lines|
  {
    if |lines| == 0 then Some([])
    else if |lines| >= 3 && lines[0].GroupName? && lines[1].GroupType? then
      if lines[2].GroupGap? then
        match ReadGroups(lines[3..])
        case None => None
        case Some(more) => Some([GroupView(lines[0].name, lines[1].kind, None)] + more)
      else if lines[2].MembersKey? then
        var (ms, rest) := ReadMembers(lines[3..]);
        assert |rest| <= |lines[3..]| by { ReadMembersShorter(lines[3..]); }
        if |rest| > 0 && rest[0].GroupGap? then
          match ReadGroups(rest[1..])
          case None => None
          case Some(more) => Some([GroupView(lines[0].name, lines[1].kind, Some(ms))] + more)
        else None
      else None
    else None
  }

  lemma {:induction false} ReadMembersShorter(lines: seq<GroupLine>)
    ensures |ReadMembers(lines).1| <= |lines|
    decreases |lines|
  {
    if |lines| > 0 && lines[0].Member? {
      ReadMembersShorter(lines[1..]);
    }
  }

  lemma {:induction false} ReadMembersBack(ms: seq<Value>, tail: seq<GroupLine>)
    requires |tail| > 0 && tail[0].GroupGap?
    ensures ReadMembers(MemberLines(ms) + tail) == (ms, tail)
    decreases |ms|
  {
    if |ms| == 0 {
      assert MemberLines(ms) + tail == tail;
    } else {
      var lines := MemberLines(ms) + tail;
      assert lines[1..] == MemberLines(ms[1..]) + tail;
      ReadMembersBack(ms[1..], tail);
      assert ms == [ms[0]] + ms[1..];
    }
  }

  function ViewOf(g: Value, keys: KeyOrder): GroupView
  {
    if g.VDict? then
      GroupView(Get(g.fields, "name", VNull), Get(g.fields, "type", VNull),
        if "proxies" in g.fields then Members(g.fields["proxies"], keys) else None)
    else GroupView(VNull, VNull, None)
  }

  function ViewsOf(gs: seq<Value>, keys: KeyOrder): seq<GroupView>
  {
    seq(|gs|, i requires 0 <= i < |gs| => ViewOf(gs[i], keys))
  }

  /** Reading one emitted block back gives the group's name, type and members,
      and the reader resumes right after the block. */
  lemma ReadGroupBlock(g: Value, rest: seq<GroupLine>, keys: KeyOrder)
    requires GroupBlock(g, keys).Some?
    ensures ReadGroups(GroupBlock(g, keys).value + rest) ==
      (match ReadGroups(rest) case None => None case Some(more) => Some([ViewOf(g, keys)] + more))
  {
    var head := [GroupName(g.fields["name"]), GroupType(g.fields["type"])];
    var lines := GroupBlock(g, keys).value + rest;
    if "proxies" in g.fields {
      var ms := Members(g.fields["proxies"], keys).value;
      assert lines == head + [MembersKey] + (MemberLines(ms) + ([GroupGap] + rest));
      assert lines[3..] == MemberLines(ms) + ([GroupGap] + rest);
      ReadMembersBack(ms, [GroupGap] + rest);
      assert ([GroupGap] + rest)[1..] == rest;
    } else {
      assert lines[3..] == rest;
    }
  }

  /** The groups section can be read back: one view per group, in order,
      each with exactly the members of its list in list order. */
  lemma {:induction false} GroupsSectionReadBack(gs: seq<Value>, keys: KeyOrder)
    requires GroupsSection(gs, keys).Ok?
    ensures forall i :: 0 <= i < |gs| ==> GroupBlock(gs[i], keys).Some?
    ensures ReadGroups(GroupsSection(gs, keys).value) == Some(ViewsOf(gs, keys))
    decreases |gs|
  {
    if |gs| > 0 {
      GroupsSectionReadBack(gs[1..], keys);
      var rest := GroupsSection(gs[1..], keys).value;
      assert GroupsSection(gs, keys).value == GroupBlock(gs[0], keys).value + rest;
      ReadGroupBlock(gs[0], rest, keys);
      assert ReadGroups(rest) == Some(ViewsOf(gs[1..], keys));
      assert ReadGroups(GroupBlock(gs[0], keys).value + rest) == Some([ViewOf(gs[0], keys)] + ViewsOf(gs[1..], keys));
      forall i | 0 <= i < |gs| ensures GroupBlock(gs[i], keys).Some? {
        if i > 0 {
          assert gs[i] == gs[1..][i - 1];
        }
      }
      assert ViewsOf(gs, keys) == [ViewOf(gs[0], keys)] + ViewsOf(gs[1..], keys);
    } else {
      assert ViewsOf(gs, keys) == [];
    }
  }

  /** `_clean_yaml_content` and its fallback `_fix_yaml_content`: both hand
      the text to the YAML parser as it is, so an inline mapping ending in
      `}` survives. */
  function UnrepairedYaml(content: string): (r: string)
    ensures r == content
  {
    content
  }
}
