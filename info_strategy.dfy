/**
 * strategy/info_strategy.go: `DeviceInfoImpl.Run` collects nine command
 * outputs and reduces them to the fields of one report; the CPU, memory
 * and battery strategies print one command's output.
 */
module InfoStrategy {
  import opened Wrappers
  import opened Strings
  import opened Lines
  import opened ExecPolicy
  import opened Adb
  import opened AndroidVersion

  // ---------------------------------------------------------------------
  // Codename.

  /** The codename: trimmed, upper-cased, and blank for a release build. */
  function CodeName(raw: string): (name: string)
    ensures name == "" <==> TrimSpace(raw) == "" || EqualFold(TrimSpace(raw), "REL")
    ensures name != "" ==> name == ToUpper(TrimSpace(raw))
  {
    var t := TrimSpace(raw);
    var c := ToUpper(t);
    RelIsUpper();
    ToUpperMatches(t, "REL");
    if c == "REL" then "" else c
  }

  /** "REL" is already in upper case. */
  lemma RelIsUpper()
    ensures ToUpper("REL") == "REL"
  {
    var r := ToUpper("REL");
    assert r[0] == 'R' && r[1] == 'E' && r[2] == 'L';
  }

  // ---------------------------------------------------------------------
  // Display.

  /** One display line: trimmed and cut before the first "rng". */
  function CutAtRng(line: string): (res: string)
    ensures res <= TrimSpace(line)
    ensures !Contains(res, "rng")
    ensures Contains(TrimSpace(line), "rng") ==> "rng" <= TrimSpace(line)[|res|..]
    ensures !Contains(TrimSpace(line), "rng") ==> res == TrimSpace(line)
  {
    var t := TrimSpace(line);
    var idx := IndexOf(t, "rng");
    if idx == -1 then t
    else
      BeforeFirstOccurrence(t, "rng", idx);
      t[..idx]
  }

  /** The display resolution: from the first line holding "init=", or blank. */
  function DisplayOf(lines: seq<string>): string
    decreases |lines|
  {
    if lines == [] then ""
    else if Contains(lines[0], "init=") then CutAtRng(lines[0])
    else DisplayOf(lines[1..])
  }

  /** The first line holding "init=" decides the resolution. */
  lemma {:induction false} DisplayOfFirst(lines: seq<string>, i: nat)
    requires i < |lines| && Contains(lines[i], "init=")
    requires forall j :: 0 <= j < i ==> !Contains(lines[j], "init=")
    ensures DisplayOf(lines) == CutAtRng(lines[i])
    decreases i
  {
    if i > 0 {
      DisplayOfFirst(lines[1..], i - 1);
    }
  }

  /** Without a line holding "init=" the resolution is blank. */
  lemma {:induction false} DisplayOfNone(lines: seq<string>)
    requires forall j :: 0 <= j < |lines| ==> !Contains(lines[j], "init=")
    ensures DisplayOf(lines) == ""
    decreases |lines|
  {
    if lines != [] {
      DisplayOfNone(lines[1..]);
    }
  }

  /** The loop over `displayLines` with its `break`. */
  method ParseDisplay(displayLines: seq<string>) returns (displayRes: string)
    ensures displayRes == DisplayOf(displayLines)
  {
    displayRes := "";
    var i := 0;
    while i < |displayLines|
      invariant 0 <= i <= |displayLines|
      invariant DisplayOf(displayLines[i..]) == DisplayOf(displayLines)
    {
      var line := displayLines[i];
      if Contains(line, "init=") {
        displayRes := TrimSpace(line);
        var idx := IndexOf(displayRes, "rng");
        if idx != -1 {
          displayRes := displayRes[..idx];
        }
        return;
      }
      assert displayLines[i..][1..] == displayLines[i + 1..];
      i := i + 1;
    }
  }

  // ---------------------------------------------------------------------
  // IP address.

  /** The IP line: blank when access was denied, else the text on one line. */
  function IpField(raw: string): (field: string)
    ensures field == "" <==> Contains(raw, "Permission denied")
    ensures field != "" ==> field == "ipAddress: " + TrimSpace(RemoveAll(raw, '\n'))
    ensures '\n' !in field
  {
    if Contains(raw, "Permission denied") then ""
    else
      var t := TrimSpace(RemoveAll(raw, '\n'));
      assert '\n' !in t;
      "ipAddress: " + t
  }

  // ---------------------------------------------------------------------
  // Density.

  /** `strings.Index(s, ":")`: the position of the first ':', or -1. */
  function ColonIndex(s: string): (idx: int)
    ensures idx == -1 <==> ':' !in s
    ensures idx != -1 ==> 0 <= idx < |s| && s[idx] == ':' && ':' !in s[..idx]
  {
    IndexOfChar(s, ':');
    IndexOf(s, [':'])
  }

  /** `strings.TrimSpace(s[idx+1:])` for the first ':' of `s`, if any. */
  function AfterColon(s: string): (v: Option<string>)
    ensures v.None? <==> ':' !in s
    ensures v.Some? ==> v.value == [] || (!IsSpace(v.value[0]) && !IsSpace(v.value[|v.value| - 1]))
  {
    var idx := ColonIndex(s);
    if idx == -1 then None else Some(TrimSpace(s[idx + 1..]))
  }

  /** The value is the trimmed text after the first ':'. */
  lemma AfterFirstColon(s: string)
    requires ':' in s
    ensures exists i :: 0 <= i < |s| && s[i] == ':' && ':' !in s[..i] && AfterColon(s).value == TrimSpace(s[i + 1..])
  {
    var i := ColonIndex(s);
    assert AfterColon(s).value == TrimSpace(s[i + 1..]);
  }

  /** The density strings; `scaleText` is the text `strconv.ParseFloat` is given. */
  datatype Density = Density(physical: string, override: string, scaleText: Option<string>)

  /** What the density block computes from the trimmed `wm density` output. */
  function DensityOf(density: string): Density {
    if !Contains(density, "Override density") then PlainDensity(density)
    else
      var lines := MultiLine(density);
      if |lines| < 2 then Density("", "", None) else OverriddenDensity(lines[0], lines[1])
  }

  /** The single-value form "Physical density: <v>". */
  function PlainDensity(density: string): Density {
    var v := AfterColon(density);
    Density(v.GetOr(""), "", v)
  }

  /** The two-line form: physical density, then override density. */
  function OverriddenDensity(physical: string, override: string): Density {
    match AfterColon(override)
    case None => Density(AfterColon(physical).GetOr(""), "", None)
    case Some(o) => Density(AfterColon(physical).GetOr(""), "Override density: " + o + "dpi", Some(o))
  }

  /** Without an override, the physical density is the text after the first ':' and there is no override part. */
  lemma DensityWithoutOverride(density: string)
    requires !Contains(density, "Override density")
    ensures DensityOf(density).override == ""
    ensures ':' in density ==> exists i :: 0 <= i < |density| && density[i] == ':' && ':' !in density[..i] &&
                                           DensityOf(density).physical == TrimSpace(density[i + 1..])
    ensures ':' !in density ==> DensityOf(density).physical == ""
  {
    if ':' in density {
      AfterFirstColon(density);
    }
  }

  /** With an override on the second line, it is reported as "Override density: <v>dpi". */
  lemma DensityWithOverride(density: string)
    requires Contains(density, "Override density")
    requires |MultiLine(density)| >= 2 && ':' in MultiLine(density)[1]
    ensures var o := AfterColon(MultiLine(density)[1]).value;
      DensityOf(density).override == "Override density: " + o + "dpi" && DensityOf(density).scaleText == Some(o)
    ensures DensityOf(density).physical == AfterColon(MultiLine(density)[0]).GetOr("")
  {
  }

  /** The physical density and the scale text come out trimmed. */
  lemma DensityTrimmed(density: string)
    ensures Trimmed(DensityOf(density).physical)
    ensures DensityOf(density).scaleText.Some? ==> Trimmed(DensityOf(density).scaleText.value)
  {
    if !Contains(density, "Override density") {
      PlainTrimmed(density);
    } else if |MultiLine(density)| >= 2 {
      OverriddenTrimmed(MultiLine(density)[0], MultiLine(density)[1]);
    }
  }

  /** The single-value form yields trimmed values. */
  lemma PlainTrimmed(density: string)
    ensures Trimmed(PlainDensity(density).physical)
    ensures PlainDensity(density).scaleText.Some? ==> Trimmed(PlainDensity(density).scaleText.value)
  {
    var v := AfterColon(density);
  }

  /** The two-line form yields trimmed values. */
  lemma OverriddenTrimmed(physical: string, override: string)
    ensures Trimmed(OverriddenDensity(physical, override).physical)
    ensures OverriddenDensity(physical, override).scaleText.Some? ==> Trimmed(OverriddenDensity(physical, override).scaleText.value)
  {
    var d, p, o := OverriddenDensity(physical, override), AfterColon(physical), AfterColon(override);
    assert d.physical == p.GetOr("") && d.scaleText == o;
    assert p.Some? ==> Trimmed(p.value);
  }

  /** The density block with its step-by-step assignments. */
  method ParseDensity(density: string) returns (d: Density)
    ensures d == DensityOf(density)
  {
    if !Contains(density, "Override density") {
      d := ParsePlainDensity(density);
    } else {
      var lines := MultiLine(density);
      if |lines| >= 2 {
        d := ParseOverriddenDensity(lines[0], lines[1]);
      } else {
        d := Density("", "", None);
      }
    }
  }

  /**
   * The branch for a reply without an override, statement by statement as
   * the Go code assigns it; PlainDensity is its specification and the
   * density lemmas are stated about that.
   */
  method ParsePlainDensity(density: string) returns (d: Density)
    ensures d == PlainDensity(density)
  {
    var value := TrimmedAfterColon(density);
    d := Density(value.GetOr(""), "", value);
  }

  /** The branch for a two-line reply with an override. */
  method ParseOverriddenDensity(physical: string, override: string) returns (d: Density)
    ensures d == OverriddenDensity(physical, override)
  {
    var densityRes := "";
    var overrideRes := "";
    var physicalValue := TrimmedAfterColon(physical);
    if physicalValue.Some? {
      densityRes := physicalValue.value;
    }
    var scaleText := TrimmedAfterColon(override);
    if scaleText.Some? {
      overrideRes := "Override density: " + scaleText.value + "dpi";
    }
    d := Density(densityRes, overrideRes, scaleText);
  }

  /**
   * `idx := strings.Index(s, ":")` and, when found, `strings.TrimSpace(s[idx+1:])`,
   * as the Go statements compute it; AfterColon is its specification.
   */
  method TrimmedAfterColon(s: string) returns (v: Option<string>)
    ensures v == AfterColon(s)
  {
    var idx := ColonIndex(s);
    if idx != -1 {
      v := Some(TrimSpace(s[idx + 1..]));
    } else {
      v := None;
    }
  }

  // ---------------------------------------------------------------------
  // Version.

  /** The version label: the SDK table entry, or "Android <release>" for an SDK not in the table. */
  function VersionLabel(sdk: string, release: string): (versionBuild: string)
    ensures sdk in VersionMap ==> versionBuild == VersionMap[sdk]
    ensures sdk !in VersionMap ==> versionBuild == "Android " + release
  {
    var versionBuild := GetVersionBuild(sdk);
    if versionBuild == "" then "Android " + release else versionBuild
  }

  // ---------------------------------------------------------------------
  // Run.

  /** The fields of the printed report. */
  datatype DeviceInfo = DeviceInfo(
    model: string, imei: string, versionBuild: string, codeName: string, display: string,
    density: Density, androidId: string, ipAddress: string)

  /** The nine queries, in the order they are issued. */
  const InfoCommands: seq<Command> := [
    GetProp("ro.product.model"), GetProp("ro.build.version.release"), WmDensity, DumpDisplays,
    AndroidId, GetProp("ro.build.version.sdk"), IfconfigMask, Imei, GetProp("ro.build.version.codename")]

  /** The outcome of query `i` when the queries start at reply `k`; only the ifconfig one ignores errors. */
  function InfoOutcome(oracle: nat -> Reply, k: nat, i: nat): Outcome {
    Decide(oracle(k + i), i == 6, None)
  }

  /** No query ends the process. */
  predicate NoInfoExit(oracle: nat -> Reply, k: nat) {
    forall i :: 0 <= i < 9 ==> !InfoOutcome(oracle, k, i).Fatal?
  }

  /** The texts the nine queries leave when the queries start at reply `k`. */
  function InfoTexts(oracle: nat -> Reply, k: nat): (raw: seq<string>)
    ensures |raw| == 9
    ensures forall i :: 0 <= i < 9 ==> raw[i] == TextOf(InfoOutcome(oracle, k, i))
  {
    seq(9, i requires 0 <= i < 9 => TextOf(InfoOutcome(oracle, k, i)))
  }

  /** The report built from the nine outputs. */
  function InfoOf(raw: seq<string>): DeviceInfo
    requires |raw| == 9
  {
    DeviceInfo(
      TrimSpace(raw[0]), TrimSpace(raw[7]), VersionLabel(TrimSpace(raw[5]), TrimSpace(raw[1])),
      CodeName(raw[8]), DisplayOf(MultiLine(raw[3])), DensityOf(TrimSpace(raw[2])),
      TrimSpace(raw[4]), IpField(raw[6]))
  }

  /** An exit leaves every later query silent. */
  method Query(h: Host, cmd: Command, ignoreError: bool) returns (text: string)
    modifies h`issued, h`exited
    ensures old(h.exited) ==> unchanged(h) && text == ""
    ensures !old(h.exited) ==>
      && h.issued == old(h.issued) + [cmd]
      && h.exited == old(h.Next(ignoreError, None)).Fatal?
      && text == TextOf(old(h.Next(ignoreError, None)))
  {
    var err;
    text, err := h.Exec(cmd, ignoreError, None);
  }

  /** The nine queries of `DeviceInfoImpl.Run`; an exit leaves the later ones silent. */
  method QueryAll(h: Host) returns (raw: seq<string>)
    modifies h`issued, h`exited
    ensures |raw| == 9
    ensures old(h.exited) ==> unchanged(h)
    ensures old(h.issued) <= h.issued <= old(h.issued) + InfoCommands
    ensures !old(h.exited) && NoInfoExit(h.oracle, |old(h.issued)|) ==>
      && !h.exited
      && h.issued == old(h.issued) + InfoCommands
      && raw == InfoTexts(h.oracle, |old(h.issued)|)
  {
    ghost var k := |h.issued|;
    ghost var quiet := !h.exited && NoInfoExit(h.oracle, k);
    raw := [];
    for i := 0 to 9
      invariant old(h.issued) <= h.issued <= old(h.issued) + InfoCommands[..i]
      invariant old(h.exited) ==> unchanged(h)
      invariant !h.exited ==> h.issued == old(h.issued) + InfoCommands[..i]
      invariant |raw| == i
      invariant quiet ==> !h.exited
      invariant quiet ==> forall j :: 0 <= j < i ==> raw[j] == TextOf(InfoOutcome(h.oracle, k, j))
    {
      assert InfoCommands[..i + 1] == InfoCommands[..i] + [InfoCommands[i]];
      assert quiet ==> !InfoOutcome(h.oracle, k, i).Fatal?;
      var text := Query(h, InfoCommands[i], i == 6);
      raw := raw + [text];
    }
    assert InfoCommands[..9] == InfoCommands;
    assert quiet ==> raw == InfoTexts(h.oracle, k);
  }

  /** The reassignments of `DeviceInfoImpl.Run` after its queries. */
  method Summarize(raw: seq<string>) returns (info: DeviceInfo)
    requires |raw| == 9
    ensures info == InfoOf(raw)
  {
    var model := TrimSpace(raw[0]);
    var version := TrimSpace(raw[1]);
    var density := TrimSpace(raw[2]);
    var androidID := TrimSpace(raw[4]);
    var sdkVersion := TrimSpace(raw[5]);
    var imei := TrimSpace(raw[7]);
    var codeName := ToUpper(TrimSpace(raw[8]));
    if codeName == "REL" {
      codeName := "";
    }
    var displayRes := ParseDisplay(MultiLine(raw[3]));
    var ipAddressRes := "";
    if !Contains(raw[6], "Permission denied") {
      ipAddressRes := "ipAddress: " + TrimSpace(RemoveAll(raw[6], '\n'));
    }
    var densityRes := ParseDensity(density);
    var versionBuild := GetVersionBuild(sdkVersion);
    if versionBuild == "" {
      versionBuild := "Android " + version;
    }
    info := DeviceInfo(model, imei, versionBuild, codeName, displayRes, densityRes, androidID, ipAddressRes);
  }

  /**
   * `DeviceInfoImpl.Run`: the errors of the queries are dropped and the
   * result is always nil. With no query ending the process, the report is
   * `InfoOf` the nine outputs.
   */
  method RunDeviceInfo(h: Host) returns (info: DeviceInfo, err: Option<Error>)
    modifies h`issued, h`exited
    ensures err == None
    ensures old(h.exited) ==> unchanged(h)
    ensures old(h.issued) <= h.issued <= old(h.issued) + InfoCommands
    ensures !old(h.exited) && NoInfoExit(h.oracle, |old(h.issued)|) ==>
      && !h.exited
      && h.issued == old(h.issued) + InfoCommands
      && info == InfoOf(InfoTexts(h.oracle, |old(h.issued)|))
  {
    var raw := QueryAll(h);
    info := Summarize(raw);
    return info, None;
  }

  /** `CPUInfo.Run`, `MemInfo.Run`, `BatteryInfo.Run`: print the output of one query, or return its error. */
  method RunDump(h: Host, cmd: Command) returns (printed: Option<string>, err: Option<Error>)
    modifies h`issued, h`exited
    ensures old(h.exited) ==> unchanged(h) && printed == Some("") && err == None
    ensures !old(h.exited) ==>
      && h.issued == old(h.issued) + [cmd]
      && h.exited == old(h.NextStrict()).Fatal?
      && err == ErrorOf(old(h.NextStrict()), cmd)
      && (printed.Some? <==> err.None?)
      && (old(h.NextStrict()).Return? ==> printed == Some(old(h.NextStrict()).text))
  {
    var output, e := h.Exec(cmd, false, None);
    if e.Some? {
      return None, e;
    }
    return Some(output), None;
  }
}
