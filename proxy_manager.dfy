/** `proxy_manager.py`, the single-file Flask application the services grew
    out of: it cleans stray braces out of `config.yaml` before parsing it,
    migrates `proxies_dialer` as `core/config.py` does, and edits proxies,
    transit lines, regions, device remarks and VM account counters with its
    own versions of the service operations. Where a step is the same as the
    service's, the service's definition is used and a lemma says so. */
module ProxyManager {
  import opened Values
  import opened Text
  import opened YamlHelper
  import opened ConfigManager
  import opened ProxyService
  import opened TransitService
  import opened RegionService
  import opened DeviceService
  import opened VmService

  // ---------------------------------------------------------------------
  // Cleaning the configuration text

  /** `line.rstrip()[:-1].rstrip()`: the closing brace at the end of the
      line cut off, with the whitespace on both sides of it. */
  function DropBrace(line: string): string
    requires EndsWith(RStrip(line), "}")
  {
    var t := RStrip(line);
    RStrip(t[..|t| - 1])
  }

  /** Exactly one closing brace is cut off, and apart from it only
      whitespace. */
  lemma DropBraceSpec(line: string)
    requires EndsWith(RStrip(line), "}")
    ensures var r := DropBrace(line);
      |r| < |RStrip(line)| <= |line| && r == line[..|r|] &&
      exists j :: |r| <= j < |line| && line[j] == '}' &&
        forall i :: |r| <= i < |line| && i != j ==> IsSpace(line[i])
  {
    var t := RStrip(line);
    RStripShape(line);
    var u := t[..|t| - 1];
    RStripShape(u);
    var r := DropBrace(line);
    assert t[|t| - 1] == '}';
    assert line[|t| - 1] == '}';
    forall i | |r| <= i < |line| && i != |t| - 1
      ensures IsSpace(line[i])
    {
      if i < |t| - 1 {
        assert line[i] == u[i];
      }
    }
  }

  /** What is left after the brace is cut off ends in no whitespace. */
  lemma DropBraceEnd(line: string)
    requires EndsWith(RStrip(line), "}")
    ensures var r := DropBrace(line);
      |r| > 0 ==> !IsSpace(r[|r| - 1])
  {
    var t := RStrip(line);
    assert |t| > 0 && t[|t| - 1] == '}';
    var u := t[..|t| - 1];
    assert DropBrace(line) == RStrip(u);
    RStripShape(u);
  }

  /** The lines whose closing brace belongs to an inline mapping:
      `'proxies:' in line or line.strip().startswith('- {')`. */
  predicate KeepsBrace(line: string)
  {
    Contains(line, "proxies:") || StartsWith(Strip(line), "- {")
  }

  /** `clean_yaml_line(line)` */
  function CleanYamlLine(line: string): string
  {
    var t := RStrip(line);
    if EndsWith(t, "}") && !KeepsBrace(t) then DropBrace(line) else t
  }

  /** The cleaned line is the line with its end cut off and no trailing
      whitespace. What is cut off is whitespace and, exactly when the
      right-stripped line ends in a brace that does not belong to an inline
      mapping, one closing brace. */
  lemma CleanYamlLineSpec(line: string)
    ensures var r := CleanYamlLine(line);
      |r| <= |line| && r == line[..|r|] && (|r| > 0 ==> !IsSpace(r[|r| - 1]))
    ensures var r := CleanYamlLine(line);
      !(EndsWith(RStrip(line), "}") && !KeepsBrace(RStrip(line))) ==>
        forall i :: |r| <= i < |line| ==> IsSpace(line[i])
    ensures var r := CleanYamlLine(line);
      EndsWith(RStrip(line), "}") && !KeepsBrace(RStrip(line)) ==>
        exists j :: |r| <= j < |line| && line[j] == '}' &&
          forall i :: |r| <= i < |line| && i != j ==> IsSpace(line[i])
  {
    var t := RStrip(line);
    if EndsWith(t, "}") && !KeepsBrace(t) {
      var r := DropBrace(line);
      assert CleanYamlLine(line) == r;
      DropBraceSpec(line);
      DropBraceEnd(line);
    } else {
      assert CleanYamlLine(line) == t;
      RStripShape(line);
    }
  }

  /** A line `load_config` may clean: not blank, not a comment, not a list
      item. */
  predicate IsKeyLine(line: string)
  {
    var s := Strip(line);
    s != "" && !StartsWith(s, "#") && !StartsWith(s, "-")
  }

  /** One line before the `proxies:` line in the first pass of
      `load_config`. */
  function CleanKeyLine(line: string): string
  {
    if IsKeyLine(line) && EndsWith(RStrip(line), "}") then
      var cleaned := DropBrace(line);
      if cleaned != RStrip(line) then (if EndsWith(line, "\n") then cleaned + "\n" else cleaned) else line
    else line
  }

  /** On a line of the split text (which holds no line break) the first pass
      changes exactly the key lines ending in a brace, and cuts off exactly
      one brace and the whitespace around it. */
  lemma CleanKeyLineSpec(line: string)
    requires '\n' !in line
    ensures CleanKeyLine(line) != line <==> IsKeyLine(line) && EndsWith(RStrip(line), "}")
    ensures CleanKeyLine(line) != line ==>
      var r := CleanKeyLine(line);
      |r| <= |line| && r == line[..|r|] &&
      exists j :: |r| <= j < |line| && line[j] == '}' &&
        forall i :: |r| <= i < |line| && i != j ==> IsSpace(line[i])
  {
    if IsKeyLine(line) && EndsWith(RStrip(line), "}") {
      var cleaned := DropBrace(line);
      assert |cleaned| < |RStrip(line)| <= |line| && cleaned == line[..|cleaned|] &&
        exists j :: |cleaned| <= j < |line| && line[j] == '}' &&
          forall i :: |cleaned| <= i < |line| && i != j ==> IsSpace(line[i])
      by {
        DropBraceSpec(line);
      }
      assert !EndsWith(line, "\n");
      assert CleanKeyLine(line) == cleaned;
    } else {
      assert CleanKeyLine(line) == line;
    }
  }

  /** One line before the `proxies:` line in the fallback pass of
      `load_config` (run when the first parse fails): a line ending in a
      brace that holds a `:` loses the brace, and nothing else. */
  function FixKeyLine(line: string): string
  {
    var t := RStrip(line);
    if EndsWith(t, "}") && ':' in line then t[..|t| - 1] else line
  }

  /** The fallback pass changes a line exactly when it ends in a brace and
      holds a `:`, and then cuts off that brace and the whitespace after it
      (but not the whitespace before it). */
  lemma FixKeyLineSpec(line: string)
    ensures FixKeyLine(line) != line <==> EndsWith(RStrip(line), "}") && ':' in line
    ensures FixKeyLine(line) != line ==> FixKeyLine(line) + "}" == RStrip(line)
  {
    RStripShape(line);
  }

  /** Line `i` lies at or after the first line containing `proxies:`. */
  predicate InProxies(lines: seq<string>, i: int)
  {
    exists j :: 0 <= j <= i && j < |lines| && Contains(lines[j], "proxies:")
  }

  lemma InProxiesStep(lines: seq<string>, i: nat)
    requires i < |lines|
    ensures InProxies(lines, i) <==> (i > 0 && InProxies(lines, i - 1)) || Contains(lines[i], "proxies:")
  {
    if InProxies(lines, i) && !Contains(lines[i], "proxies:") {
      var j :| 0 <= j <= i && j < |lines| && Contains(lines[j], "proxies:");
      assert j < i;
    }
  }

  /** The lines after one cleaning pass of `load_config`: the lines before
      the first `proxies:` line go through `clean`, the rest are kept. */
  function CleanedLines(lines: seq<string>, clean: string -> string): seq<string>
  {
    seq(|lines|, i requires 0 <= i < |lines| => if InProxies(lines, i) then lines[i] else clean(lines[i]))
  }

  /** A pass cleans exactly the lines before the first `proxies:` line (all
      lines when there is none) and keeps that line and every later one as
      it is. */
  lemma CleanedLinesSpec(lines: seq<string>, clean: string -> string, k: nat)
    requires k <= |lines| && (k < |lines| ==> Contains(lines[k], "proxies:"))
    requires forall j :: 0 <= j < k ==> !Contains(lines[j], "proxies:")
    ensures |CleanedLines(lines, clean)| == |lines|
    ensures CleanedLines(lines, clean)[k..] == lines[k..]
    ensures forall i :: 0 <= i < k ==> CleanedLines(lines, clean)[i] == clean(lines[i])
  {
    var r := CleanedLines(lines, clean);
    forall i | k <= i < |lines|
      ensures r[i] == lines[i]
    {
      assert InProxies(lines, i);
    }
  }

  /** The flag loop of `load_config`: split at line breaks, clean the lines
      before the first `proxies:` line, join again. The first pass uses
      `CleanKeyLine`, the fallback pass `FixKeyLine`. */
  method CleanBeforeProxies(content: string, clean: string -> string) returns (out: string)
    ensures out == Join(CleanedLines(Split(content, '\n'), clean), '\n')
  {
    var lines := Split(content, '\n');
    var cleaned: seq<string> := [];
    var inProxies := false;
    var i := 0;
    while i < |lines|
      invariant 0 <= i <= |lines|
      invariant inProxies <==> i > 0 && InProxies(lines, i - 1)
      invariant cleaned == CleanedLines(lines, clean)[..i]
    {
      var line := lines[i];
      ghost var all := CleanedLines(lines, clean);
      assert all[..i + 1] == all[..i] + [all[i]];
      InProxiesStep(lines, i);
      if Contains(line, "proxies:") {
        inProxies := true;
        cleaned := cleaned + [line];
      } else if !inProxies {
        cleaned := cleaned + [clean(line)];
      } else {
        cleaned := cleaned + [line];
      }
      i := i + 1;
    }
    assert cleaned == CleanedLines(lines, clean);
    out := Join(cleaned, '\n');
  }

  // ---------------------------------------------------------------------
  // Names

  /** The first record from position `from` on, other than the one at
      `exclude`, called `name`. */
  function FirstConflictFrom(ps: seq<Dict>, name: string, exclude: Option<int>, from: nat): (r: Option<nat>)
    requires from <= |ps|
    ensures r.Some? ==>
      from <= r.value < |ps| && exclude != Some(r.value) && NameOf(ps[r.value]) == VStr(name) &&
      forall j :: from <= j < r.value && exclude != Some(j) ==> NameOf(ps[j]) != VStr(name)
    ensures r.None? <==> forall j :: from <= j < |ps| && exclude != Some(j) ==> NameOf(ps[j]) != VStr(name)
    decreases |ps| - from
  {
    if from == |ps| then None
    else if exclude != Some(from) && NameOf(ps[from]) == VStr(name) then Some(from)
    else FirstConflictFrom(ps, name, exclude, from + 1)
  }

  /** The conflict `check_proxy_name_exists` reports: the position of the
      record and whether it is a transit line or a normal proxy. */
  datatype Conflict = Conflict(index: nat, transit: bool)

  /** `check_proxy_name_exists(config, name, exclude_index)`: nothing for an
      empty name, else the first conflicting record. It finds one exactly
      when the service's `_check_name_exists` says the name is taken. */
  function NameConflict(ps: seq<Dict>, name: string, exclude: Option<int>): (r: Option<Conflict>)
    ensures r.Some? <==> name != "" && NameInUse(ps, name, exclude)
    ensures r.Some? ==>
      var k := r.value.index;
      k < |ps| && exclude != Some(k) && NameOf(ps[k]) == VStr(name) &&
      r.value.transit == IsTransitProxy(ps[k]) &&
      forall j :: 0 <= j < k && exclude != Some(j) ==> NameOf(ps[j]) != VStr(name)
  {
    if name == "" then None
    else match FirstConflictFrom(ps, name, exclude, 0)
      case None => None
      case Some(k) => Some(Conflict(k, IsTransitProxy(ps[k])))
  }

  /** The loop of `check_proxy_name_exists`. */
  method CheckProxyNameExists(ps: seq<Dict>, name: string, exclude: Option<int>) returns (r: Option<Conflict>)
    ensures r == NameConflict(ps, name, exclude)
  {
    if name == "" {
      return None;
    }
    var idx := 0;
    while idx < |ps|
      invariant 0 <= idx <= |ps|
      invariant FirstConflictFrom(ps, name, exclude, 0) == FirstConflictFrom(ps, name, exclude, idx)
    {
      if exclude != Some(idx) && NameOf(ps[idx]) == VStr(name) {
        return Some(Conflict(idx, IsTransitProxy(ps[idx])));
      }
      idx := idx + 1;
    }
    return None;
  }

  // ---------------------------------------------------------------------
  // Parsing proxy lines

  /** `parse_proxy_line(line, format_type)` */
  function ParseLine(line: string, format: string): Option<ParsedLine>
  {
    var l := Strip(line);
    if l == "" then None
    else if format == "format1" then
      var parts := Split(l, ':');
      if |parts| == 4 then Fields(parts[2], parts[3], parts[0], parts[1]) else None
    else if format == "format2" then
      var parts := Split(l, ':');
      if |parts| == 4 then Fields(parts[0], parts[1], parts[2], parts[3]) else None
    else if format == "format3" then
      if '@' in l then
        var (auth, server) := SplitOnce(l, '@').value;
        if ':' in auth && ':' in server then
          var (user, pass) := SplitOnce(auth, ':').value;
          var (host, port) := SplitOnce(server, ':').value;
          Fields(host, port, user, pass)
        else None
      else None
    else None
  }

  /** The application's parser is the service's parser applied to the
      stripped line; in particular a blank line parses to nothing. */
  lemma ParseLineAgrees(line: string, format: string)
    ensures ParseLine(line, format) == ParseProxyLine(Strip(line), format)
    ensures Strip(line) == "" ==> ParseLine(line, format).None?
  {
    var l := Strip(line);
    if l == "" {
      assert Find(l, ':').None?;
      assert Split(l, ':') == [l];
    }
  }

  // ---------------------------------------------------------------------
  // Batch import

  /** The loop of `add_proxies_batch` and what follows it: the records are
      those of the service's loop without an `IsBak` key; at least one must
      be added, and only then is the counter the loop ended on saved. Gives
      the new list, the new counters and the names added. */
  function BatchOutcome(ps: seq<Dict>, counters: Dict, parsed: seq<ParsedLine>, prefix: string, start: int,
                        region: string, dialer: string): Result<(seq<Dict>, Dict, seq<string>), ProxyError>
  {
    var run := BatchRun(ps, parsed, prefix, start, region, dialer, None);
    if |run.1| == 0 then Err(AllNamesTaken)
    else Ok((run.0, counters[prefix := VInt(start + |parsed|)], run.1))
  }

  method RunBatch(ps: seq<Dict>, counters: Dict, parsed: seq<ParsedLine>, prefix: string, start: int,
                  region: string, dialer: string) returns (r: Result<(seq<Dict>, Dict, seq<string>), ProxyError>)
    ensures r == BatchOutcome(ps, counters, parsed, prefix, start, region, dialer)
  {
    var qs, added, counter := AppendBatch(ps, parsed, prefix, start, region, dialer, None);
    if |added| == 0 {
      return Err(AllNamesTaken);
    }
    return Ok((qs, counters[prefix := VInt(counter)], added));
  }

  /** A batch that adds something advances the prefix's counter by one per
      parsed line, skipped names included, and leaves the other counters
      alone; it only appends, one record per name added, and keeps names
      unique. A batch that adds nothing fails and changes nothing. */
  lemma BatchOutcomeSpec(ps: seq<Dict>, counters: Dict, parsed: seq<ParsedLine>, prefix: string, start: int,
                         region: string, dialer: string)
    ensures var b := BatchOutcome(ps, counters, parsed, prefix, start, region, dialer);
      (b.Err? <==> |BatchRun(ps, parsed, prefix, start, region, dialer, None).1| == 0) &&
      (b.Ok? ==>
        b.value.1 == counters[prefix := VInt(start + |parsed|)] &&
        (forall k :: k != prefix && k in counters ==> k in b.value.1 && b.value.1[k] == counters[k]) &&
        0 < |b.value.2| <= |parsed| && |b.value.0| == |ps| + |b.value.2| && b.value.0[..|ps|] == ps &&
        (forall j :: 0 <= j < |b.value.2| ==> !NameInUse(ps, b.value.2[j], None)) &&
        (UniqueNames(ps) ==> UniqueNames(b.value.0)))
  {
    BatchRunAppends(ps, parsed, prefix, start, region, dialer, None);
    BatchRunNames(ps, parsed, prefix, start, region, dialer, None);
    if UniqueNames(ps) {
      BatchRunUnique(ps, parsed, prefix, start, region, dialer, None);
    }
  }

  // ---------------------------------------------------------------------
  // Updating a proxy

  /** The request keys `update_proxy` handles itself; every other key is a
      custom one. */
  const HandledKeys: set<string> :=
    {"name", "type", "server", "port", "password", "username", "sni", "skip-cert-verify", "udp", "dialer-proxy", "region"}

  /** The keys copied when the request has them. */
  const CopiedIfPresent: set<string> := {"password", "username", "sni", "udp"}

  /** The record `update_proxy` writes, from the request, the record it
      replaces, and the stripped name and upper-cased region. */
  function UpdatedRecord(data: Dict, prior: Dict, name: string, region: string): Dict
  {
    DialedRecord(data, prior, name, region) + CustomFields(data)
  }

  /** The handled keys of the new record, with the `dialer-proxy` merge. */
  function DialedRecord(data: Dict, prior: Dict, name: string, region: string): Dict
  {
    var flags := FlagsRecord(data, name, region);
    if "dialer-proxy" in data then
      (if Truthy(data["dialer-proxy"]) then flags["dialer-proxy" := data["dialer-proxy"]] else flags)
    else if "dialer-proxy" in prior then flags["dialer-proxy" := prior["dialer-proxy"]]
    else flags
  }

  /** The handled keys of the new record before the `dialer-proxy` merge. */
  function FlagsRecord(data: Dict, name: string, region: string): (f: Dict)
    ensures "dialer-proxy" !in f && forall k :: k in f ==> k in HandledKeys
    ensures "name" in f && f["name"] == VStr(name) && "region" in f && f["region"] == VStr(region)
    ensures "skip-cert-verify" in f && f["skip-cert-verify"] == Get(data, "skip-cert-verify", VBool(true))
    ensures "udp" in f <==> "udp" in data
  {
    var base := map[
      "name" := VStr(name), "type" := Get(data, "type", VStr("socks5")), "server" := Get(data, "server", VStr("")),
      "port" := ConvertPort(Get(data, "port", VStr(""))), "region" := VStr(region)];
    var copied := base + (map k | k in data && k in CopiedIfPresent :: data[k]);
    copied["skip-cert-verify" := Get(data, "skip-cert-verify", VBool(true))]
  }

  /** The custom keys: every other request key whose value is truthy. */
  function CustomFields(data: Dict): (c: Dict)
    ensures forall k :: k in c ==> k !in HandledKeys
  {
    map k | k in data && k !in HandledKeys && Truthy(data[k]) :: data[k]
  }

  /** The custom keys never overwrite a handled one. */
  lemma HandledKept(d: Dict, data: Dict, k: string)
    requires k in HandledKeys
    ensures (k in d + CustomFields(data) <==> k in d)
    ensures k in d ==> (d + CustomFields(data))[k] == d[k]
  {
    assert k !in CustomFields(data);
  }

  /** The `dialer-proxy` merge: a request that names the key decides it (an
      empty value drops it); a request that omits it keeps the old record's.
      `udp` is written only when requested; `skip-cert-verify` defaults to
      `True`. */
  lemma UpdatedDialer(data: Dict, prior: Dict, name: string, region: string)
    ensures var r := UpdatedRecord(data, prior, name, region);
      NameOf(r) == VStr(name) && r["region"] == VStr(region) &&
      r["skip-cert-verify"] == Get(data, "skip-cert-verify", VBool(true)) &&
      ("udp" in r <==> "udp" in data) &&
      ("dialer-proxy" in data ==>
        ("dialer-proxy" in r <==> Truthy(data["dialer-proxy"])) &&
        ("dialer-proxy" in r ==> r["dialer-proxy"] == data["dialer-proxy"])) &&
      ("dialer-proxy" !in data ==>
        ("dialer-proxy" in r <==> "dialer-proxy" in prior) &&
        ("dialer-proxy" in r ==> r["dialer-proxy"] == prior["dialer-proxy"]))
  {
    var d := DialedRecord(data, prior, name, region);
    HandledKept(d, data, "name");
    HandledKept(d, data, "region");
    HandledKept(d, data, "skip-cert-verify");
    HandledKept(d, data, "udp");
    HandledKept(d, data, "dialer-proxy");
  }

  /** Every other request key is copied when its value is truthy, and the
      record holds no key that is neither handled nor requested. So a
      request carrying `IsBase: True` turns the record into a transit line,
      which the service's builder never does. */
  lemma UpdatedCustomKeys(data: Dict, prior: Dict, name: string, region: string)
    ensures var r := UpdatedRecord(data, prior, name, region);
      (forall k :: k in data && k !in HandledKeys ==> (k in r <==> Truthy(data[k])) && (k in r ==> r[k] == data[k])) &&
      (forall k :: k in r ==> k in HandledKeys || k in data) &&
      (Get(data, "IsBase", VNull) == VBool(true) ==> IsTransitProxy(r))
  {
    var d := DialedRecord(data, prior, name, region);
    var c := CustomFields(data);
    assert d.Keys <= HandledKeys by {
      assert FlagsRecord(data, name, region).Keys <= HandledKeys;
    }
    assert "IsBase" !in HandledKeys;
    if Get(data, "IsBase", VNull) == VBool(true) {
      assert "IsBase" in c && c["IsBase"] == VBool(true);
    }
  }

  /** `update_proxy(index)` after the range check, in the source's order:
      the name check (only for a non-empty name), the region checks against
      the listed regions (the defaults when none are configured), then the
      new record. A field that is not a string raises on `.strip()`. */
  function UpdateOutcome(data: Dict, ps: seq<Dict>, regions: seq<Dict>, index: nat): Result<Dict, ProxyError>
    requires index < |ps|
  {
    match StrField(data, "name")
    case None => Err(Raised)
    case Some(n) =>
      var name := Strip(n);
      if name != "" && NameConflict(ps, name, Some(index)).Some? then Err(NameTaken(name))
      else match StrField(data, "region")
        case None => Err(Raised)
        case Some(g) =>
          var region := Upper(Strip(g));
          if region == "" then Err(RegionRequired)
          else if !KnownRegion(AllRegions(regions), region) then Err(UnknownRegion(region))
          else Ok(UpdatedRecord(data, ps[index], name, region))
  }

  /** An accepted update keeps names unique and gives a listed region. */
  lemma UpdateKeepsNamesUnique(data: Dict, ps: seq<Dict>, regions: seq<Dict>, index: nat)
    requires index < |ps| && UniqueNames(ps) && UpdateOutcome(data, ps, regions, index).Ok?
    ensures UniqueNames(ps[index := UpdateOutcome(data, ps, regions, index).value])
    ensures KnownRegion(AllRegions(regions), UpdateOutcome(data, ps, regions, index).value["region"].s)
  {
    var r := UpdateOutcome(data, ps, regions, index).value;
    var name := Strip(StrField(data, "name").value);
    var region := Upper(Strip(StrField(data, "region").value));
    UpdatedDialer(data, ps[index], name, region);
    assert FreeFor(ps, r, index);
    ReplaceKeepsUnique(ps, index, r);
  }

  // ---------------------------------------------------------------------
  // The usage guard of `delete_transit_proxy`

  /** `delete_transit_proxy` looks at every record, without excluding the
      line itself; since the line is a transit line it is never its own
      user, so the list is the one the service builds. */
  lemma {:induction false} GuardAgrees(ps: seq<Dict>, name: Value, k: int)
    requires 0 <= k < |ps| ==> IsTransitProxy(ps[k])
    ensures Users(ps, name, -1) == Users(ps, name, k)
    decreases |ps|
  {
    if |ps| > 0 {
      var init := ps[..|ps| - 1];
      assert 0 <= k < |init| ==> init[k] == ps[k];
      GuardAgrees(init, name, k);
    }
  }

  // ---------------------------------------------------------------------
  // Names for VM accounts

  /** A record `get_vm_proxy_names(region)` lists: a normal proxy with a
      truthy name, of that region when one is asked for. */
  predicate Listed(p: Dict, region: string)
  {
    !IsTransitProxy(p) && Truthy(NameOf(p)) && (region == "" || Get(p, "region", VStr("")) == VStr(region))
  }

  function VmProxyNames(ps: seq<Dict>, region: string): seq<Value>
  {
    if |ps| == 0 then []
    else
      var last := ps[|ps| - 1];
      VmProxyNames(ps[..|ps| - 1], region) + (if Listed(last, region) then [NameOf(last)] else [])
  }

  /** The names listed are exactly those of the listed records; a region
      only narrows the list. */
  lemma {:induction false} VmProxyNamesSpec(ps: seq<Dict>, region: string)
    ensures |VmProxyNames(ps, region)| <= |ps|
    ensures forall v :: v in VmProxyNames(ps, region) <==> exists i :: 0 <= i < |ps| && Listed(ps[i], region) && NameOf(ps[i]) == v
    ensures forall v :: v in VmProxyNames(ps, region) ==> v in VmProxyNames(ps, "")
    decreases |ps|
  {
    if |ps| > 0 {
      var init := ps[..|ps| - 1];
      VmProxyNamesSpec(init, region);
      VmProxyNamesSpec(init, "");
      forall v | (exists i :: 0 <= i < |ps| && Listed(ps[i], region) && NameOf(ps[i]) == v)
        ensures v in VmProxyNames(ps, region)
      {
        var i :| 0 <= i < |ps| && Listed(ps[i], region) && NameOf(ps[i]) == v;
        if i < |init| {
          assert init[i] == ps[i];
        }
      }
      forall v | v in VmProxyNames(init, region)
        ensures exists i :: 0 <= i < |ps| && Listed(ps[i], region) && NameOf(ps[i]) == v
      {
        var i :| 0 <= i < |init| && Listed(init[i], region) && NameOf(init[i]) == v;
        assert ps[i] == init[i];
      }
    }
  }

  /** `counters.get(key, 0)`, read as `0` when it is not an integer; unlike
      the service, which raises on such a counter. */
  function CounterValue(counters: Dict, key: string): (r: int)
    ensures NextNumber(counters, key).Some? ==> NextNumber(counters, key).value == r + 1
    ensures NextNumber(counters, key).None? ==> r == 0
  {
    var c := Get(counters, key, VInt(0));
    if IsNumber(c) then NumberOf(c) else 0
  }

  /** Generate, increment, generate: the second name carries the next
      number whatever the counter held, so the two names differ. */
  lemma VmCounterStep(counters: Dict, appType: string, region: string)
    ensures var key := CounterKey(appType, region);
      var n := CounterValue(counters, key) + 1;
      CounterValue(counters[key := VInt(n)], key) + 1 == n + 1 &&
      AccountName(appType, region, n) != AccountName(appType, region, n + 1)
  {
    var n := CounterValue(counters, CounterKey(appType, region)) + 1;
    AccountNameNumber(appType, region, n, n + 1);
  }

  /** The default regions have distinct codes. */
  lemma DefaultRegionsUnique()
    ensures UniqueCodes(DefaultRegions)
  {
    var d := DefaultRegions;
    assert CodeOf(d[0]) == VStr("GB") && CodeOf(d[1]) == VStr("SG") && CodeOf(d[2]) == VStr("HK");
    assert CodeOf(d[3]) == VStr("MY") && CodeOf(d[4]) == VStr("PH");
  }

  /** `add_region` checks and extends the listed regions, defaults included:
      on an empty configuration it stores the five defaults and the new
      region. Codes stay unique. */
  lemma AddRegionKeepsCodesUnique(stored: seq<Dict>, code: string, name: string)
    requires UniqueCodes(stored) && !KnownRegion(AllRegions(stored), code)
    ensures UniqueCodes(AllRegions(stored) + [Region(code, name)])
    ensures |stored| == 0 ==> (AllRegions(stored) + [Region(code, name)])[..5] == DefaultRegions
  {
    DefaultRegionsUnique();
    AddKeepsCodesUnique(AllRegions(stored), code, name);
  }

  // ---------------------------------------------------------------------
  // `update_proxy_groups`

  /** `len()` is defined for the value: a string, a list or a mapping. */
  predicate HasLen(v: Value)
  {
    v.VStr? || v.VList? || v.VDict?
  }

  /** A group that ends the update: it is rewritten, then
      `len(old_proxies)` raises and the handler around the loop leaves the
      groups after it as they were. */
  predicate StopsSync(g: Value)
  {
    IsSyncedGroup(g) && !HasLen(Get(g.fields, "proxies", VList([])))
  }

  /** The groups after the loop of `update_proxy_groups`. */
  function ManagerSync(gs: seq<Value>, names: seq<Value>): seq<Value>
  {
    if |gs| == 0 then []
    else if StopsSync(gs[0]) then [SyncGroup(gs[0], names)] + gs[1..]
    else [SyncGroup(gs[0], names)] + ManagerSync(gs[1..], names)
  }

  /** `proxy-groups` after `update_proxy_groups`; an absent key stays absent. */
  function ManagerSyncedGroups(groups: Option<seq<Value>>, names: seq<Value>): Option<seq<Value>>
  {
    match groups
    case None => None
    case Some(gs) => Some(ManagerSync(gs, names))
  }

  /** The position of the first group that ends the update. */
  function FirstStop(gs: seq<Value>): (r: Option<nat>)
    ensures r.Some? ==> r.value < |gs| && StopsSync(gs[r.value]) && forall i :: 0 <= i < r.value ==> !StopsSync(gs[i])
    ensures r.None? ==> forall i :: 0 <= i < |gs| ==> !StopsSync(gs[i])
  {
    if |gs| == 0 then None
    else if StopsSync(gs[0]) then Some(0)
    else match FirstStop(gs[1..])
      case None => None
      case Some(k) => Some(k + 1)
  }

  /** Every group up to and including the first one that ends the update is
      synchronised as the service does it; every later group is untouched. */
  lemma {:induction false} ManagerSyncSpec(gs: seq<Value>, names: seq<Value>)
    ensures |ManagerSync(gs, names)| == |gs|
    ensures forall i :: 0 <= i < |gs| ==>
      ManagerSync(gs, names)[i] ==
        if FirstStop(gs).None? || i <= FirstStop(gs).value then SyncGroup(gs[i], names) else gs[i]
    decreases |gs|
  {
    if |gs| > 0 && !StopsSync(gs[0]) {
      ManagerSyncSpec(gs[1..], names);
      var r := ManagerSync(gs, names);
      forall i | 0 < i < |gs|
        ensures r[i] == if FirstStop(gs).None? || i <= FirstStop(gs).value then SyncGroup(gs[i], names) else gs[i]
      {
        assert r[i] == ManagerSync(gs[1..], names)[i - 1];
        assert gs[1..][i - 1] == gs[i];
      }
    }
  }

  /** When every group's old `proxies` has a length (or is absent), the
      monolith's update is the service's. */
  lemma ManagerSyncAgrees(groups: Option<seq<Value>>, names: seq<Value>)
    ensures groups.None? || FirstStop(groups.value).None? ==>
      ManagerSyncedGroups(groups, names) == SyncedGroups(groups, names)
  {
    if groups.Some? && FirstStop(groups.value).None? {
      var gs := groups.value;
      ManagerSyncSpec(gs, names);
      var mine, theirs := ManagerSync(gs, names), SyncedGroups(groups, names).value;
      assert |mine| == |theirs|;
      forall i | 0 <= i < |gs|
        ensures mine[i] == theirs[i]
      {
      }
      assert mine == theirs;
    }
  }

  /** A `select` group with `proxies: null` ahead of another `select`
      group: the first is rewritten, the second keeps its old list. */
  lemma ManagerSyncStopsEarly()
    ensures var a := VDict(map["name" := VStr("A"), "type" := VStr("select"), "proxies" := VNull]);
      var b := VDict(map["name" := VStr("B"), "type" := VStr("select"), "proxies" := VList([VStr("x")])]);
      ManagerSyncedGroups(Some([a, b]), [VStr("y")]) == Some([SyncGroup(a, [VStr("y")]), b])
    ensures var a := VDict(map["name" := VStr("A"), "type" := VStr("select"), "proxies" := VNull]);
      var b := VDict(map["name" := VStr("B"), "type" := VStr("select"), "proxies" := VList([VStr("x")])]);
      SyncedGroups(Some([a, b]), [VStr("y")]).value[1] != b
  {
    var a := VDict(map["name" := VStr("A"), "type" := VStr("select"), "proxies" := VNull]);
    var b := VDict(map["name" := VStr("B"), "type" := VStr("select"), "proxies" := VList([VStr("x")])]);
    var names := [VStr("y")];
    assert Get(a.fields, "type", VStr("")) == VStr("select");
    assert Get(a.fields, "name", VStr("")) == VStr("A");
    assert Get(a.fields, "proxies", VList([])) == VNull;
    assert StopsSync(a);
    assert [a, b][0] == a && [a, b][1..] == [b];
    assert ManagerSync([a, b], names) == [SyncGroup(a, names)] + [b] == [SyncGroup(a, names), b];
    assert ManagerSyncedGroups(Some([a, b]), names) == Some([SyncGroup(a, names), b]);
    assert Get(b.fields, "type", VStr("")) == VStr("select");
    assert Get(b.fields, "name", VStr("")) == VStr("B");
    assert IsSyncedGroup(b);
    var synced := SyncedGroups(Some([a, b]), names).value;
    assert synced[1] == SyncGroup(b, names);
    assert SyncGroup(b, names).fields["proxies"] == VList(names);
    assert synced[1] != b;
  }

  /** `update_proxy_groups(config)`: the names of the records, then the
      rewrite of the groups, which stops at the first group whose old
      member list has no length. */
  method UpdateManagerGroups(doc: Document)
    modifies doc
    ensures doc.proxies == old(doc.proxies)
    ensures doc.groups == ManagerSyncedGroups(old(doc.groups), ProxyNames(doc.proxies))
  {
    if doc.groups.None? {
      return;
    }
    var ps := doc.proxies;
    var names: seq<Value> := [];
    var i := 0;
    while i < |ps|
      invariant 0 <= i <= |ps|
      invariant names == ProxyNames(ps[..i])
    {
      assert ps[..i + 1][..i] == ps[..i];
      if "name" in ps[i] {
        names := names + [ps[i]["name"]];
      }
      i := i + 1;
    }
    assert ps[..i] == ps;
    var gs := doc.groups.value;
    var out: seq<Value> := [];
    var j := 0;
    var stopped := false;
    assert gs[0..] == gs;
    while j < |gs| && !stopped
      invariant 0 <= j <= |gs|
      invariant !stopped ==> out + ManagerSync(gs[j..], names) == ManagerSync(gs, names)
      invariant stopped ==> out + gs[j..] == ManagerSync(gs, names)
    {
      var g := gs[j];
      assert gs[j..][0] == g && gs[j..][1..] == gs[j + 1..];
      if g.VDict? && Get(g.fields, "type", VStr("")) == VStr("select") && Get(g.fields, "name", VStr("")) != VStr("PROXY") {
        var oldMembers := Get(g.fields, "proxies", VList([]));
        out := out + [VDict(g.fields["proxies" := VList(names)])];
        if !HasLen(oldMembers) {
          stopped := true;
        }
      } else {
        out := out + [g];
      }
      j := j + 1;
    }
    if stopped {
      out := out + gs[j..];
    } else {
      assert gs[j..] == [];
      assert out + [] == out;
    }
    doc.groups := Some(out);
  }

  // ---------------------------------------------------------------------
  // The application

  /** The application's two stores: the loaded configuration and the
      settings file. */
  class App {
    const doc: Document
    const settings: SettingStore

    constructor (doc: Document, settings: SettingStore)
      ensures this.doc == doc && this.settings == settings
    {
      this.doc := doc;
      this.settings := settings;
    }

    /** The parsing and counter loops of `add_proxies_batch`, on the
      stripped and checked request fields. */
    method AddProxiesBatch(text: string, format: string, region: string, prefix: string, dialer: string)
      returns (r: Result<seq<string>, ProxyError>)
      modifies doc, settings
      ensures var lines := ParseLines(Split(text, '\n'), format);
        var c := Get(old(settings.nameCounters), prefix, VInt(0));
        (|lines.0| == 0 ==> r == Err(NothingParsed(Take(lines.1, 5)))) &&
        (|lines.0| > 0 && !IsNumber(c) ==> r == Err(Raised)) &&
        (|lines.0| > 0 && IsNumber(c) ==>
          var b := BatchOutcome(old(doc.proxies), old(settings.nameCounters), lines.0, prefix, NumberOf(c), region, dialer);
          (b.Err? ==> r == Err(b.error)) &&
          (b.Ok? ==> r == Ok(b.value.2) && doc.proxies == b.value.0 && settings.nameCounters == b.value.1 &&
                     doc.groups == ManagerSyncedGroups(old(doc.groups), ProxyNames(doc.proxies))))
      ensures r.Err? ==>
        doc.proxies == old(doc.proxies) && doc.groups == old(doc.groups) &&
        settings.nameCounters == old(settings.nameCounters)
      ensures settings.regions == old(settings.regions) && settings.devices == old(settings.devices) &&
        settings.vmCounters == old(settings.vmCounters) && settings.paths == old(settings.paths)
    {
      var parsed, failed := ParseProxyLines(text, format);
      if |parsed| == 0 {
        return Err(NothingParsed(Take(failed, 5)));
      }
      var c := Get(settings.nameCounters, prefix, VInt(0));
      if !IsNumber(c) {
        return Err(Raised);
      }
      var b := RunBatch(doc.proxies, settings.nameCounters, parsed, prefix, NumberOf(c), region, dialer);
      if b.Err? {
        return Err(b.error);
      }
      doc.proxies := b.value.0;
      settings.nameCounters := b.value.1;
      UpdateManagerGroups(doc);
      return Ok(b.value.2);
    }

    /** `update_proxy(index)`: `index` is a position in the full list. */
    method UpdateProxy(index: int, data: Dict) returns (r: Result<Dict, ProxyError>)
      modifies doc
      ensures !(0 <= index < |old(doc.proxies)|) ==> r == Err(IndexOutOfRange)
      ensures 0 <= index < |old(doc.proxies)| ==> r == UpdateOutcome(data, old(doc.proxies), settings.regions, index)
      ensures r.Err? ==> doc.proxies == old(doc.proxies) && doc.groups == old(doc.groups)
      ensures r.Ok? ==>
        0 <= index < |old(doc.proxies)| &&
        doc.proxies == old(doc.proxies)[index := r.value] &&
        doc.groups == ManagerSyncedGroups(old(doc.groups), ProxyNames(doc.proxies))
    {
      if index < 0 || index >= |doc.proxies| {
        return Err(IndexOutOfRange);
      }
      var nameField := StrField(data, "name");
      if nameField.None? {
        return Err(Raised);
      }
      var name := Strip(nameField.value);
      if name != "" {
        var conflict := CheckProxyNameExists(doc.proxies, name, Some(index));
        if conflict.Some? {
          return Err(NameTaken(name));
        }
      }
      var regionField := StrField(data, "region");
      if regionField.None? {
        return Err(Raised);
      }
      var region := Upper(Strip(regionField.value));
      if region == "" {
        return Err(RegionRequired);
      }
      var known := FindCode(AllRegions(settings.regions), region);
      if !known {
        return Err(UnknownRegion(region));
      }
      var p := UpdatedRecord(data, doc.proxies[index], name, region);
      doc.proxies := doc.proxies[index := p];
      UpdateManagerGroups(doc);
      return Ok(p);
    }

    /** `delete_transit_proxy(index)`: `index` is a position among the
      transit lines; the line is refused while a normal proxy dials through
      its (non-empty) name. Building the transit view tags the loaded
      record itself, so the deleted record comes back carrying `_index`. */
    method DeleteTransitProxy(index: int) returns (r: Result<Dict, TransitError>)
      modifies doc
      ensures !(0 <= index < |Positions(old(doc.proxies), true)|) ==> r == Err(NoSuchTransit)
      ensures 0 <= index < |Positions(old(doc.proxies), true)| ==>
        var k := Positions(old(doc.proxies), true)[index];
        k < |old(doc.proxies)| &&
        var name := Get(old(doc.proxies)[k], "name", VStr(""));
        (Truthy(name) && |Users(old(doc.proxies), name, -1)| > 0 ==>
          r == if AllStrings(Users(old(doc.proxies), name, -1)) then Err(InUse(Users(old(doc.proxies), name, -1)))
               else Err(LabelNotString)) &&
        (!Truthy(name) || |Users(old(doc.proxies), name, -1)| == 0 ==>
          r == Ok(old(doc.proxies)[k]["_index" := VInt(k)]))
      ensures r.Err? ==> doc.proxies == old(doc.proxies) && doc.groups == old(doc.groups)
      ensures r.Ok? ==>
        0 <= index < |Positions(old(doc.proxies), true)| &&
        var k := Positions(old(doc.proxies), true)[index];
        k < |old(doc.proxies)| && IsTransitProxy(old(doc.proxies)[k]) &&
        doc.proxies == Without(old(doc.proxies), k) &&
        doc.groups == ManagerSyncedGroups(old(doc.groups), ProxyNames(doc.proxies))
    {
      var view := GetKindView(doc.proxies, true);
      KindViewSpec(doc.proxies, true);
      if index < 0 || index >= |view| {
        return Err(NoSuchTransit);
      }
      var tagged: Dict := view[index];
      var original := tagged["_index"].i;
      var deleted := doc.proxies[original];
      var proxyName := Get(deleted, "name", VStr(""));
      if Truthy(proxyName) {
        var usedBy := CheckTransitUsage(doc.proxies, proxyName, -1);
        if |usedBy| > 0 {
          if !AllStrings(usedBy) {
            return Err(LabelNotString);
          }
          return Err(InUse(usedBy));
        }
      }
      doc.proxies := Without(doc.proxies, original);
      UpdateManagerGroups(doc);
      return Ok(tagged);
    }

    /** `get_vm_proxy_names()` with its `region` argument. */
    method GetVmProxyNames(regionArg: string) returns (names: seq<Value>)
      ensures names == VmProxyNames(doc.proxies, Upper(Strip(regionArg)))
    {
      var region := Upper(Strip(regionArg));
      var ps := doc.proxies;
      names := [];
      var i := 0;
      while i < |ps|
        invariant 0 <= i <= |ps|
        invariant names == VmProxyNames(ps[..i], region)
      {
        assert ps[..i + 1][..i] == ps[..i];
        var p := ps[i];
        if !IsTransitProxy(p) {
          var proxyName := Get(p, "name", VNull);
          var proxyRegion := Get(p, "region", VStr(""));
          if region != "" {
            if proxyRegion == VStr(region) && Truthy(proxyName) {
              names := names + [proxyName];
            }
          } else if Truthy(proxyName) {
            names := names + [proxyName];
          }
        }
        i := i + 1;
      }
      assert ps[..i] == ps;
    }

    /** `add_region()` on the request's code and name. */
    method AddRegion(code: string, name: string) returns (r: Result<Dict, RegionError>)
      modifies settings
      ensures var c := Upper(Strip(code)); var n := Strip(name);
        (c == "" || n == "" ==> r == Err(EmptyCodeOrName)) &&
        (c != "" && n != "" && KnownRegion(AllRegions(old(settings.regions)), c) ==> r == Err(CodeExists(c))) &&
        (c != "" && n != "" && !KnownRegion(AllRegions(old(settings.regions)), c) ==> r == Ok(Region(c, n)))
      ensures r.Err? ==> settings.regions == old(settings.regions)
      ensures r.Ok? ==> settings.regions == AllRegions(old(settings.regions)) + [r.value]
      ensures settings.devices == old(settings.devices) && settings.vmCounters == old(settings.vmCounters)
      ensures settings.nameCounters == old(settings.nameCounters) && settings.paths == old(settings.paths)
    {
      var c := Upper(Strip(code));
      var n := Strip(name);
      if c == "" || n == "" {
        return Err(EmptyCodeOrName);
      }
      var regions := AllRegions(settings.regions);
      var taken := FindCode(regions, c);
      if taken {
        return Err(CodeExists(c));
      }
      var region := Region(c, n);
      settings.regions := regions + [region];
      return Ok(region);
    }

    /** `delete_region(code)`: filters the listed regions, defaults
      included. */
    method DeleteRegion(code: string) returns (r: Result<(), RegionError>)
      modifies settings
      ensures r.Ok? <==> KnownRegion(AllRegions(old(settings.regions)), Upper(code))
      ensures r.Err? ==> r == Err(CodeNotFound(Upper(code))) && settings.regions == old(settings.regions)
      ensures r.Ok? ==> settings.regions == DropMatching(AllRegions(old(settings.regions)), "code", VStr(Upper(code)))
      ensures settings.devices == old(settings.devices) && settings.vmCounters == old(settings.vmCounters)
      ensures settings.nameCounters == old(settings.nameCounters) && settings.paths == old(settings.paths)
    {
      var c := Upper(code);
      var regions := AllRegions(settings.regions);
      var kept := DropMatching(regions, "code", VStr(c));
      DropMatchingSpec(regions, "code", VStr(c));
      forall i | 0 <= i < |regions|
        ensures Matches(regions[i], "code", VStr(c)) <==> CodeOf(regions[i]) == VStr(c)
      {
        PyEqString(CodeOf(regions[i]), c);
      }
      if |kept| == |regions| {
        return Err(CodeNotFound(c));
      }
      settings.regions := kept;
      return Ok(());
    }

    /** `add_device_config()`: both fields stripped, then the upsert of the
      device service. */
    method AddDeviceConfig(deviceId: string, remark: string) returns (r: Result<Dict, DeviceError>)
      modifies settings
      ensures Strip(deviceId) == "" ==> r == Err(EmptyDeviceId) && settings.devices == old(settings.devices)
      ensures Strip(deviceId) != "" ==>
        r == Ok(DeviceEntry(VStr(Strip(deviceId)), VStr(Strip(remark)))) &&
        settings.devices == Upsert(old(settings.devices), r.value, VStr(Strip(deviceId)))
      ensures settings.regions == old(settings.regions) && settings.vmCounters == old(settings.vmCounters)
      ensures settings.nameCounters == old(settings.nameCounters) && settings.paths == old(settings.paths)
    {
      var id := Strip(deviceId);
      if id == "" {
        return Err(EmptyDeviceId);
      }
      var existing := FindDevice(settings.devices, VStr(id));
      var entry := DeviceEntry(VStr(id), VStr(Strip(remark)));
      if existing.Some? {
        settings.devices := settings.devices[existing.value := entry];
      } else {
        settings.devices := settings.devices + [entry];
      }
      return Ok(entry);
    }

    /** `delete_device_config(device_id)` */
    method DeleteDeviceConfig(deviceId: string) returns (r: Result<(), DeviceError>)
      modifies settings
      ensures r.Ok? <==> exists j :: 0 <= j < |old(settings.devices)| && Matches(old(settings.devices)[j], "device_id", VStr(deviceId))
      ensures r.Err? ==> r == Err(NoSuchDevice(VStr(deviceId))) && settings.devices == old(settings.devices)
      ensures r.Ok? ==> settings.devices == DropMatching(old(settings.devices), "device_id", VStr(deviceId))
      ensures settings.regions == old(settings.regions) && settings.vmCounters == old(settings.vmCounters)
      ensures settings.nameCounters == old(settings.nameCounters) && settings.paths == old(settings.paths)
    {
      var kept := DropMatching(settings.devices, "device_id", VStr(deviceId));
      DropMatchingSpec(settings.devices, "device_id", VStr(deviceId));
      if |kept| == |settings.devices| {
        return Err(NoSuchDevice(VStr(deviceId)));
      }
      settings.devices := kept;
      return Ok(());
    }

    /** `generate_vm_account_name(app_type, region)`: reads the counter and
      changes nothing. */
    method GenerateVmAccountName(appType: string, region: string) returns (name: string)
      ensures name == AccountName(appType, region, CounterValue(settings.vmCounters, CounterKey(appType, region)) + 1)
    {
      var key := appType + "_" + region;
      var current := Get(settings.vmCounters, key, VInt(0));
      var count := if IsNumber(current) then NumberOf(current) else 0;
      name := appType + "_" + region + "_" + Format03(count + 1);
    }

    /** `increment_vm_account_counter(app_type, region)`: that counter
      becomes its old value plus one, a missing or non-integer one 1;
      nothing else changes. */
    method IncrementVmAccountCounter(appType: string, region: string)
      modifies settings
      ensures var key := CounterKey(appType, region);
        settings.vmCounters == old(settings.vmCounters)[key := VInt(CounterValue(old(settings.vmCounters), key) + 1)]
      ensures settings.regions == old(settings.regions) && settings.devices == old(settings.devices)
      ensures settings.nameCounters == old(settings.nameCounters) && settings.paths == old(settings.paths)
    {
      var key := appType + "_" + region;
      var current := Get(settings.vmCounters, key, VInt(0));
      var count := if IsNumber(current) then NumberOf(current) else 0;
      settings.vmCounters := settings.vmCounters[key := VInt(count + 1)];
    }
  }
}
