/**
 * Linux discovery in device/device.go: the line scanner over `lsblk -J`
 * output, the size strings it meets, and scanLinux, which keeps the
 * removable records.
 */
module Linux {
  import opened Text
  import opened Wrappers
  import opened DeviceRecord

  // ---------------------------------------------------------------------
  // parseLinuxSize

  /**
   * The outcome of parseLinuxSize. FloatSyntax is the case Go hands to
   * strconv.ParseFloat (a fractional or otherwise non-integer mantissa, or an
   * integer too large to convert exactly), whose value is not modelled.
   */
  datatype SizeParse = Parsed(bytes: nat) | SizeError | FloatSyntax(mantissa: string, multiplier: nat)

  /** Integers below 2^53 are exact in a float64. */
  const FLOAT_EXACT_LIMIT: nat := 0x20_0000_0000_0000

  /** The factor a trailing unit letter stands for; 1 when the last character is no unit. */
  function UnitMultiplier(c: char): (m: nat)
    ensures m >= 1
  {
    if c == 'K' || c == 'k' then 1024
    else if c == 'M' || c == 'm' then 1024 * 1024
    else if c == 'G' || c == 'g' then 1024 * 1024 * 1024
    else if c == 'T' || c == 't' then 1024 * 1024 * 1024 * 1024
    else 1
  }

  /** A count times the factor of a unit letter. */
  function ScaleByUnit(n: nat, c: char): (r: nat)
    ensures r == n * UnitMultiplier(c)
  {
    if c == 'K' || c == 'k' then n * 1024
    else if c == 'M' || c == 'm' then n * (1024 * 1024)
    else if c == 'G' || c == 'g' then n * (1024 * 1024 * 1024)
    else if c == 'T' || c == 't' then n * (1024 * 1024 * 1024 * 1024)
    else n
  }

  /** The characters that can occur in something strconv.ParseFloat accepts. */
  predicate FloatChar(c: char) {
    IsDigit(c) || c in ".+-_" || c in "aAbBcCdDeEfFiInNpPtTxXyY"
  }

  predicate FloatText(s: string) {
    forall i :: 0 <= i < |s| ==> FloatChar(s[i])
  }

  function ParseLinuxSize(raw: string): (r: SizeParse)
    ensures TrimSpace(raw) == "" || TrimSpace(raw) == "null" ==> r == SizeError
    ensures r.Parsed? ==> r.bytes < UINT64_LIMIT
  {
    var s := TrimSpace(raw);
    if s == "" || s == "null" then SizeError
    else if AllDigits(s) && DecimalValue(s) < UINT64_LIMIT then Parsed(DecimalValue(s))
    else
      var mult := UnitMultiplier(s[|s| - 1]);
      var num := if mult == 1 then s else s[..|s| - 1];
      if num != [] && AllDigits(num) && DecimalValue(num) < FLOAT_EXACT_LIMIT
         && ScaleByUnit(DecimalValue(num), s[|s| - 1]) < UINT64_LIMIT then
        Parsed(ScaleByUnit(DecimalValue(num), s[|s| - 1]))
      else if num == [] || !FloatText(num) then SizeError
      else FloatSyntax(num, mult)
  }

  /** A plain byte count parses to itself. */
  lemma ParseByteCount(n: nat)
    requires n < UINT64_LIMIT
    ensures ParseLinuxSize(NatToString(n)) == Parsed(n)
  {
    var s := NatToString(n);
    TrimSpaceNoop(s);
    assert IsDigit(s[0]);
  }

  /** A count followed by K, M, G or T (either case) is that count times 1024, 1024^2, 1024^3 or 1024^4. */
  lemma ParseWithUnit(n: nat, unit: char)
    requires unit in "KkMmGgTt"
    requires n < FLOAT_EXACT_LIMIT && n * UnitMultiplier(unit) < UINT64_LIMIT
    ensures ParseLinuxSize(NatToString(n) + [unit]) == Parsed(n * UnitMultiplier(unit))
  {
    var digits := NatToString(n);
    var s := digits + [unit];
    assert s[|s| - 1] == unit;
    assert s[..|s| - 1] == digits;
    assert !IsSpace(s[0]) by {
      assert s[0] == digits[0];
    }
    TrimSpaceNoop(s);
    assert !AllDigits(s);
    assert IsDigit(s[0]);
    assert UnitMultiplier(unit) != 1;
  }

  /** Without a unit letter, a size holding a character no float can hold is an error. */
  lemma ParseRejectsJunk(raw: string, i: int)
    requires var s := TrimSpace(raw);
      s != [] && UnitMultiplier(s[|s| - 1]) == 1 && 0 <= i < |s| && !FloatChar(s[i])
    ensures ParseLinuxSize(raw) == SizeError
  {
    var s := TrimSpace(raw);
    assert !IsDigit(s[i]);
    assert !AllDigits(s);
    assert !FloatText(s);
  }

  // ---------------------------------------------------------------------
  // parseLsblkJSON

  const NameKey: string := "\"name\""
  const TypeKey: string := "\"type\""
  const MountpointKey: string := "\"mountpoint\""
  const FstypeKey: string := "\"fstype\""
  const LabelKey: string := "\"label\""
  const UuidKey: string := "\"uuid\""
  const SizeKey: string := "\"size\""

  /**
   * The text between the first two double quotes found after skipping
   * `skip` characters from where `key` first occurs. Go slices past the end
   * of the line (and panics) when the key ends the line; here the remainder
   * is then empty and nothing is found.
   */
  function QuotedAfter(line: string, key: string, skip: nat): Option<string> {
    var idx := Index(line, key);
    if idx < 0 then None
    else
      var rest := if idx + skip <= |line| then line[idx + skip..] else "";
      var i2 := Index(rest, "\"");
      if i2 < 0 then None
      else
        var rest2 := rest[i2 + 1..];
        var i3 := Index(rest2, "\"");
        if i3 < 0 then None else Some(rest2[..i3])
  }

  /** A quoted value that is neither empty nor "null". */
  function PresentValue(line: string, key: string, skip: nat): (r: Option<string>)
    ensures r.Some? ==> r.value != "" && r.value != "null"
  {
    match QuotedAfter(line, key, skip)
    case Some(v) => if v != "" && v != "null" then Some(v) else None
    case None => None
  }

  /** A line with a quoted "name" value starts a fresh record, discarding the unfinished one. */
  function StartRecord(line: string, current: Option<Device>): Option<Device> {
    if Contains(line, NameKey) then
      match QuotedAfter(line, NameKey, 6)
      case Some(n) => Some(NewDevice(n))
      case None => current
    else current
  }

  function TypeUpdate(d: Device, line: string): Device {
    if Contains(line, TypeKey) && Contains(line, "\"disk\"") then d.(isPartition := false)
    else if Contains(line, TypeKey) && Contains(line, "\"part\"") then d.(isPartition := true)
    else d
  }

  function RemovableUpdate(d: Device, line: string): Device {
    if (Contains(line, "\"rm\"") && Contains(line, "\"1\""))
       || (Contains(line, "\"hotplug\"") && Contains(line, "\"1\"")) then d.(isRemovable := true)
    else d
  }

  function MountpointUpdate(d: Device, line: string): Device {
    match PresentValue(line, MountpointKey, 13)
    case Some(mp) => d.(mountPoint := mp, isMounted := true)
    case None => d
  }

  function FstypeUpdate(d: Device, line: string): Device {
    match PresentValue(line, FstypeKey, 9)
    case Some(v) => d.(fsType := v)
    case None => d
  }

  function LabelUpdate(d: Device, line: string): Device {
    match PresentValue(line, LabelKey, 8)
    case Some(v) => d.(volumeLabel := v)
    case None => d
  }

  function UuidUpdate(d: Device, line: string): Device {
    match PresentValue(line, UuidKey, 7)
    case Some(v) => d.(uuid := v)
    case None => d
  }

  function SizeUpdate(d: Device, line: string): Device {
    match QuotedAfter(line, SizeKey, 7)
    case Some(sz) => (match ParseLinuxSize(sz) case Parsed(n) => d.(size := n) case _ => d)
    case None => d
  }

  /** The field updates one line makes to the record being read, in the order the Go code makes them. */
  function ApplyLsblkLine(d: Device, line: string): Device {
    SizeUpdate(UuidUpdate(LabelUpdate(FstypeUpdate(MountpointUpdate(
      RemovableUpdate(TypeUpdate(d, line), line), line), line), line), line), line)
  }

  /** A line that ends a record: it holds "}" but not "},". */
  predicate ClosesRecord(line: string) {
    Contains(line, "}") && !Contains(line, "},")
  }

  datatype LsblkState = LsblkState(devices: seq<Device>, current: Option<Device>)

  /** After its fields are read, a record is emitted (when named) on a closing line and carried on otherwise. */
  function CloseOrCarry(devices: seq<Device>, d: Device, line: string): LsblkState {
    if ClosesRecord(line) then LsblkState(devices + (if d.name != "" then [d] else []), None)
    else LsblkState(devices, Some(d))
  }

  function LsblkStep(st: LsblkState, raw: string): LsblkState {
    var line := TrimSpace(raw);
    match StartRecord(line, st.current)
    case None => LsblkState(st.devices, None)
    case Some(d) => CloseOrCarry(st.devices, ApplyLsblkLine(d, line), line)
  }

  function LsblkFold(lines: seq<string>): LsblkState
    decreases |lines|
  {
    if lines == [] then LsblkState([], None)
    else LsblkStep(LsblkFold(lines[..|lines| - 1]), lines[|lines| - 1])
  }

  function ParseLsblkJSONSpec(output: string): seq<Device> {
    LsblkFold(Split(output, "\n")).devices
  }

  method ReadType(dev: Device, line: string) returns (d: Device)
    ensures d == TypeUpdate(dev, line)
  {
    d := dev;
    if Contains(line, TypeKey) && Contains(line, "\"disk\"") {
      d := d.(isPartition := false);
    } else if Contains(line, TypeKey) && Contains(line, "\"part\"") {
      d := d.(isPartition := true);
    }
  }

  method ReadRemovable(dev: Device, line: string) returns (d: Device)
    ensures d == RemovableUpdate(dev, line)
  {
    d := dev;
    if Contains(line, "\"rm\"") && Contains(line, "\"1\"") {
      d := d.(isRemovable := true);
    }
    if Contains(line, "\"hotplug\"") && Contains(line, "\"1\"") {
      d := d.(isRemovable := true);
    }
  }

  method ReadMountpoint(dev: Device, line: string) returns (d: Device)
    ensures d == MountpointUpdate(dev, line)
  {
    d := dev;
    var mp := QuotedAfter(line, MountpointKey, 13);
    if mp.Some? && mp.value != "" && mp.value != "null" {
      d := d.(mountPoint := mp.value, isMounted := true);
    }
  }

  method ReadFstype(dev: Device, line: string) returns (d: Device)
    ensures d == FstypeUpdate(dev, line)
  {
    d := dev;
    var fstype := QuotedAfter(line, FstypeKey, 9);
    if fstype.Some? && fstype.value != "" && fstype.value != "null" {
      d := d.(fsType := fstype.value);
    }
  }

  method ReadLabel(dev: Device, line: string) returns (d: Device)
    ensures d == LabelUpdate(dev, line)
  {
    d := dev;
    var volName := QuotedAfter(line, LabelKey, 8);
    if volName.Some? && volName.value != "" && volName.value != "null" {
      d := d.(volumeLabel := volName.value);
    }
  }

  method ReadUuid(dev: Device, line: string) returns (d: Device)
    ensures d == UuidUpdate(dev, line)
  {
    d := dev;
    var uuid := QuotedAfter(line, UuidKey, 7);
    if uuid.Some? && uuid.value != "" && uuid.value != "null" {
      d := d.(uuid := uuid.value);
    }
  }

  /**
   * The "size" field: a value that parses to a byte count becomes the size;
   * anything else (no quoted value, an error, a value only
   * strconv.ParseFloat would take) leaves the record as it was.
   */
  method ReadSize(dev: Device, line: string) returns (d: Device)
    ensures d == SizeUpdate(dev, line)
    ensures d.(size := dev.size) == dev
    ensures (QuotedAfter(line, SizeKey, 7).Some? && ParseLinuxSize(QuotedAfter(line, SizeKey, 7).value).Parsed?)
      ==> d.size == ParseLinuxSize(QuotedAfter(line, SizeKey, 7).value).bytes
    ensures !(QuotedAfter(line, SizeKey, 7).Some? && ParseLinuxSize(QuotedAfter(line, SizeKey, 7).value).Parsed?)
      ==> d == dev
  {
    d := dev;
    var sizeStr := QuotedAfter(line, SizeKey, 7);
    if sizeStr.Some? {
      var size := ParseLinuxSize(sizeStr.value);
      if size.Parsed? {
        d := d.(size := size.bytes);
      }
    }
  }

  /** The field updates of one line of parseLsblkJSON, in the order the Go code makes them. */
  method ApplyLsblkFields(dev: Device, line: string) returns (d: Device)
    ensures d == ApplyLsblkLine(dev, line)
  {
    d := ReadType(dev, line);
    d := ReadRemovable(d, line);
    d := ReadMountpoint(d, line);
    d := ReadFstype(d, line);
    d := ReadLabel(d, line);
    d := ReadUuid(d, line);
    d := ReadSize(d, line);
  }

  method ReadStart(line: string, current: Option<Device>) returns (r: Option<Device>)
    ensures r == StartRecord(line, current)
  {
    r := current;
    if Contains(line, NameKey) {
      var name := QuotedAfter(line, NameKey, 6);
      if name.Some? {
        r := Some(NewDevice(name.value));
      }
    }
  }

  /** One line of parseLsblkJSON's loop. */
  method ReadLsblkLine(devices: seq<Device>, current: Option<Device>, raw: string)
    returns (devices': seq<Device>, current': Option<Device>)
    ensures LsblkState(devices', current') == LsblkStep(LsblkState(devices, current), raw)
  {
    devices', current' := devices, current;
    var line := TrimSpace(raw);
    current' := ReadStart(line, current);
    if current'.Some? {
      var d := ApplyLsblkFields(current'.value, line);
      current' := Some(d);
      if Contains(line, "}") && !Contains(line, "},") {
        if d.name != "" {
          devices' := devices' + [d];
        }
        current' := None;
      }
      assert LsblkState(devices', current') == CloseOrCarry(devices, d, line);
    }
  }

  lemma LsblkFoldPrefix(lines: seq<string>, i: int)
    requires 0 <= i < |lines|
    ensures LsblkFold(lines[..i + 1]) == LsblkStep(LsblkFold(lines[..i]), lines[i])
  {
    assert lines[..i + 1][..i] == lines[..i];
  }

  /** parseLsblkJSON. */
  method ParseLsblkJSON(output: string) returns (devices: seq<Device>)
    ensures devices == ParseLsblkJSONSpec(output)
  {
    var lines := Split(output, "\n");
    devices := [];
    var current: Option<Device> := None;
    for i := 0 to |lines|
      invariant LsblkState(devices, current) == LsblkFold(lines[..i])
    {
      LsblkFoldPrefix(lines, i);
      devices, current := ReadLsblkLine(devices, current, lines[i]);
    }
    assert lines[..|lines|] == lines;
  }

  /**
   * What a record read from lsblk always satisfies: its path is "/dev/" plus
   * its name, it is mounted exactly when it has a mount point, its size fits
   * in 64 bits, and "null" never lands in a text field.
   */
  predicate LsblkRecord(d: Device) {
    && d.path == "/dev/" + d.name
    && d.isMounted == (d.mountPoint != "")
    && d.mountPoint != "null" && d.fsType != "null" && d.volumeLabel != "null" && d.uuid != "null"
    && d.size < UINT64_LIMIT
  }

  lemma TypeKeepsRecord(d: Device, line: string)
    requires LsblkRecord(d)
    ensures LsblkRecord(TypeUpdate(d, line)) && TypeUpdate(d, line).name == d.name
  {
  }

  lemma RemovableKeepsRecord(d: Device, line: string)
    requires LsblkRecord(d)
    ensures LsblkRecord(RemovableUpdate(d, line)) && RemovableUpdate(d, line).name == d.name
  {
  }

  lemma MountpointKeepsRecord(d: Device, line: string)
    requires LsblkRecord(d)
    ensures LsblkRecord(MountpointUpdate(d, line)) && MountpointUpdate(d, line).name == d.name
  {
  }

  lemma FstypeKeepsRecord(d: Device, line: string)
    requires LsblkRecord(d)
    ensures LsblkRecord(FstypeUpdate(d, line)) && FstypeUpdate(d, line).name == d.name
  {
  }

  lemma LabelKeepsRecord(d: Device, line: string)
    requires LsblkRecord(d)
    ensures LsblkRecord(LabelUpdate(d, line)) && LabelUpdate(d, line).name == d.name
  {
  }

  lemma UuidKeepsRecord(d: Device, line: string)
    requires LsblkRecord(d)
    ensures LsblkRecord(UuidUpdate(d, line)) && UuidUpdate(d, line).name == d.name
  {
  }

  lemma SizeKeepsRecord(d: Device, line: string)
    requires LsblkRecord(d)
    ensures LsblkRecord(SizeUpdate(d, line)) && SizeUpdate(d, line).name == d.name
  {
  }

  /** Reading the fields of a line keeps a record well formed and never renames it. */
  lemma ApplyKeepsRecord(d: Device, line: string)
    requires LsblkRecord(d)
    ensures LsblkRecord(ApplyLsblkLine(d, line)) && ApplyLsblkLine(d, line).name == d.name
  {
    TypeKeepsRecord(d, line);
    var d1 := TypeUpdate(d, line);
    RemovableKeepsRecord(d1, line);
    var d2 := RemovableUpdate(d1, line);
    MountpointKeepsRecord(d2, line);
    var d3 := MountpointUpdate(d2, line);
    FstypeKeepsRecord(d3, line);
    var d4 := FstypeUpdate(d3, line);
    LabelKeepsRecord(d4, line);
    var d5 := LabelUpdate(d4, line);
    UuidKeepsRecord(d5, line);
    var d6 := UuidUpdate(d5, line);
    SizeKeepsRecord(d6, line);
  }

  lemma LsblkStepKeepsRecords(st: LsblkState, raw: string)
    requires forall d :: d in st.devices ==> LsblkRecord(d) && d.name != ""
    requires st.current.Some? ==> LsblkRecord(st.current.value)
    ensures var st' := LsblkStep(st, raw);
      && (forall d :: d in st'.devices ==> LsblkRecord(d) && d.name != "")
      && (st'.current.Some? ==> LsblkRecord(st'.current.value))
  {
    var line := TrimSpace(raw);
    var cur := StartRecord(line, st.current);
    StartKeepsRecord(line, st.current);
    if cur.Some? {
      var d := ApplyLsblkLine(cur.value, line);
      ApplyKeepsRecord(cur.value, line);
      CloseOrCarryKeepsRecords(st.devices, d, line);
    }
  }

  /** A record is started fresh from its name, or the open one is carried on. */
  lemma StartKeepsRecord(line: string, current: Option<Device>)
    requires current.Some? ==> LsblkRecord(current.value)
    ensures StartRecord(line, current).Some? ==> LsblkRecord(StartRecord(line, current).value)
  {
  }

  lemma CloseOrCarryKeepsRecords(devices: seq<Device>, d: Device, line: string)
    requires forall e :: e in devices ==> LsblkRecord(e) && e.name != ""
    requires LsblkRecord(d)
    ensures var st' := CloseOrCarry(devices, d, line);
      && (forall e :: e in st'.devices ==> LsblkRecord(e) && e.name != "")
      && (st'.current.Some? ==> LsblkRecord(st'.current.value))
  {
  }

  /** Every record parseLsblkJSON emits is well formed and named. */
  lemma {:induction false} LsblkFoldRecords(lines: seq<string>)
    ensures forall d :: d in LsblkFold(lines).devices ==> LsblkRecord(d) && d.name != ""
    ensures LsblkFold(lines).current.Some? ==> LsblkRecord(LsblkFold(lines).current.value)
    decreases |lines|
  {
    if lines != [] {
      LsblkFoldRecords(lines[..|lines| - 1]);
      LsblkStepKeepsRecords(LsblkFold(lines[..|lines| - 1]), lines[|lines| - 1]);
    }
  }

  /** A line that does not close a record emits nothing. */
  lemma LsblkStepNoClose(st: LsblkState, raw: string)
    requires !ClosesRecord(TrimSpace(raw))
    ensures LsblkStep(st, raw).devices == st.devices
  {
  }

  /** A closing line ends the record being read and emits at most that one record. */
  lemma LsblkStepClose(st: LsblkState, raw: string)
    requires ClosesRecord(TrimSpace(raw))
    ensures var st' := LsblkStep(st, raw);
      && st'.current.None?
      && (st'.devices == st.devices || (|st'.devices| == |st.devices| + 1 && st'.devices[..|st.devices|] == st.devices))
  {
    var line := TrimSpace(raw);
    var cur := StartRecord(line, st.current);
    if cur.Some? {
      var d := ApplyLsblkLine(cur.value, line);
      assert LsblkStep(st, raw) == CloseOrCarry(st.devices, d, line);
      assert (st.devices + [d])[..|st.devices|] == st.devices;
    }
  }

  /**
   * A line with a quoted name starts that device afresh: the record read on
   * it carries that name, and it is emitted there when the line closes it
   * and the name is not empty.
   */
  lemma LsblkStepNamed(st: LsblkState, raw: string, n: string)
    requires var line := TrimSpace(raw);
      Contains(line, NameKey) && QuotedAfter(line, NameKey, 6) == Some(n)
    ensures var line := TrimSpace(raw);
      var st' := LsblkStep(st, raw);
      if ClosesRecord(line) then
        if n != "" then |st'.devices| == |st.devices| + 1 && st'.devices[|st.devices|].name == n
        else st'.devices == st.devices
      else st'.current.Some? && st'.current.value.name == n
  {
    var line := TrimSpace(raw);
    assert StartRecord(line, st.current) == Some(NewDevice(n));
    var d := ApplyLsblkLine(NewDevice(n), line);
    ApplyKeepsRecord(NewDevice(n), line);
    assert LsblkStep(st, raw) == CloseOrCarry(st.devices, d, line);
  }

  // ---------------------------------------------------------------------
  // scanLinux

  /** The removable records, in order. */
  function RemovableOnly(ds: seq<Device>): (r: seq<Device>)
    decreases |ds|
  {
    if ds == [] then []
    else RemovableOnly(ds[..|ds| - 1]) + if ds[|ds| - 1].isRemovable then [ds[|ds| - 1]] else []
  }

  lemma {:induction false} RemovableOnlyMembers(ds: seq<Device>)
    ensures forall d :: d in RemovableOnly(ds) <==> d in ds && d.isRemovable
    decreases |ds|
  {
    if ds != [] {
      RemovableOnlyMembers(ds[..|ds| - 1]);
      assert ds == ds[..|ds| - 1] + [ds[|ds| - 1]];
    }
  }

  /** scanLinux: the removable lsblk records, or the /sys/block fallback when lsblk fails. */
  function ScanLinuxSpec(host: Host): Option<seq<Device>> {
    match host.lsblk
    case Some(out) => Some(RemovableOnly(ParseLsblkJSONSpec(out)))
    case None => host.sysBlockScan
  }

  method ScanLinux(host: Host) returns (r: Option<seq<Device>>)
    ensures r == ScanLinuxSpec(host)
  {
    if host.lsblk.None? {
      return host.sysBlockScan;
    }
    var linuxDevices := ParseLsblkJSON(host.lsblk.value);
    var devices := FilterRemovable(linuxDevices);
    return Some(devices);
  }

  /** The removable filter of scanLinux, in order. */
  method FilterRemovable(linuxDevices: seq<Device>) returns (devices: seq<Device>)
    ensures devices == RemovableOnly(linuxDevices)
  {
    devices := [];
    for i := 0 to |linuxDevices|
      invariant devices == RemovableOnly(linuxDevices[..i])
    {
      assert linuxDevices[..i + 1][..i] == linuxDevices[..i];
      if linuxDevices[i].isRemovable {
        devices := devices + [linuxDevices[i]];
      }
    }
    assert linuxDevices[..|linuxDevices|] == linuxDevices;
  }

  /** A successful lsblk scan keeps exactly the removable records, each well formed. */
  lemma ScanLinuxShape(host: Host)
    requires host.lsblk.Some?
    ensures var ds := ParseLsblkJSONSpec(host.lsblk.value);
      forall d :: d in ScanLinuxSpec(host).value <==> d in ds && d.isRemovable
    ensures forall d :: d in ScanLinuxSpec(host).value ==> LsblkRecord(d) && d.name != ""
  {
    var ds := ParseLsblkJSONSpec(host.lsblk.value);
    RemovableOnlyMembers(ds);
    LsblkFoldRecords(Split(host.lsblk.value, "\n"));
  }
}
