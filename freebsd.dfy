/**
 * FreeBSD discovery in device/device.go: the disks of `geom disk list`, the
 * removable check, the partitions of `gpart show -p`, and scanFreeBSD, which
 * puts them together.
 */
module FreeBSD {
  import opened Text
  import opened Wrappers
  import opened DeviceRecord
  import opened Probe

  function Names(ds: seq<Device>): (r: seq<string>)
    ensures |r| == |ds| && forall i :: 0 <= i < |ds| ==> r[i] == ds[i].name
  {
    seq(|ds|, i requires 0 <= i < |ds| => ds[i].name)
  }

  lemma NamesSnoc(ds: seq<Device>, d: Device)
    ensures Names(ds + [d]) == Names(ds) + [d.name]
  {
  }

  // ---------------------------------------------------------------------
  // geom disk list

  const GeomKey: string := "Geom name:"
  const MediasizeKey: string := "Mediasize:"

  /** The parser's state: the disks completed so far and the one being read. */
  datatype GeomState = GeomState(done: seq<Device>, current: Option<Device>)

  /** Every disk read so far, the open one included. */
  function Flush(st: GeomState): seq<Device> {
    st.done + (if st.current.Some? then [st.current.value] else [])
  }

  function GeomStep(st: GeomState, raw: string): GeomState {
    var line := TrimSpace(raw);
    if HasPrefix(line, GeomKey) then
      GeomState(Flush(st), Some(NewDevice(TrimSpace(TrimPrefix(line, GeomKey)))))
    else if st.current.Some? && HasPrefix(line, MediasizeKey) then
      GeomState(st.done, Some(Sized(st.current.value, line)))
    else st
  }

  /** The disk with the size a "Mediasize:" line gives, or unchanged when the second field is not a number. */
  function Sized(d: Device, line: string): Device {
    var parts := Fields(line);
    if |parts| >= 2 then
      match ScanUint64(parts[1])
      case Some(n) => d.(size := n)
      case None => d
    else d
  }

  function GeomFold(lines: seq<string>): GeomState
    decreases |lines|
  {
    if lines == [] then GeomState([], None)
    else GeomStep(GeomFold(lines[..|lines| - 1]), lines[|lines| - 1])
  }

  function ParseGeomDiskListSpec(output: string): seq<Device> {
    Flush(GeomFold(ScanLines(output)))
  }

  /** One line of parseGeomDiskList's loop. */
  method ReadGeomLine(devices: seq<Device>, current: Option<Device>, raw: string)
    returns (devices': seq<Device>, current': Option<Device>)
    ensures GeomState(devices', current') == GeomStep(GeomState(devices, current), raw)
  {
    ghost var st := GeomState(devices, current);
    devices', current' := devices, current;
    var line := TrimSpace(raw);
    if HasPrefix(line, GeomKey) {
      if current.Some? {
        devices' := devices + [current.value];
      }
      assert devices' == Flush(st);
      var name := TrimSpace(TrimPrefix(line, GeomKey));
      current' := Some(NewDevice(name));
    } else if current.Some? {
      if HasPrefix(line, MediasizeKey) {
        var d := ReadMediasize(current.value, line);
        current' := Some(d);
      }
    } else {
      assert GeomStep(st, raw) == st;
    }
  }

  /** The "Mediasize:" branch of parseGeomDiskList's loop. */
  method ReadMediasize(d: Device, line: string) returns (r: Device)
    ensures r == Sized(d, line)
  {
    r := d;
    var parts := Fields(line);
    if |parts| >= 2 {
      var scanned := ScanUint64(parts[1]);
      if scanned.Some? {
        r := d.(size := scanned.value);
      }
    }
  }

  /** parseGeomDiskList. */
  lemma GeomFoldPrefix(lines: seq<string>, i: int)
    requires 0 <= i < |lines|
    ensures GeomFold(lines[..i + 1]) == GeomStep(GeomFold(lines[..i]), lines[i])
  {
    assert lines[..i + 1][..i] == lines[..i];
  }

  method ParseGeomDiskList(output: string) returns (devices: seq<Device>)
    ensures devices == ParseGeomDiskListSpec(output)
  {
    var lines := ScanLines(output);
    devices := [];
    var current: Option<Device> := None;
    for i := 0 to |lines|
      invariant GeomState(devices, current) == GeomFold(lines[..i])
    {
      GeomFoldPrefix(lines, i);
      devices, current := ReadGeomLine(devices, current, lines[i]);
    }
    assert lines[..|lines|] == lines;
    if current.Some? {
      devices := devices + [current.value];
    }
  }

  /** The names on the "Geom name:" lines, in order. */
  function HeaderNames(lines: seq<string>): seq<string>
    decreases |lines|
  {
    if lines == [] then []
    else
      HeaderNames(lines[..|lines| - 1]) + HeaderName(lines[|lines| - 1])
  }

  /** A disk record as geom yields it: a name, its /dev path and a 64-bit size, nothing else. */
  predicate GeomDisk(d: Device) {
    d == NewDevice(d.name).(size := d.size) && d.size < UINT64_LIMIT
  }

  /** The name a line contributes to HeaderNames. */
  function HeaderName(raw: string): seq<string> {
    var line := TrimSpace(raw);
    if HasPrefix(line, GeomKey) then [TrimSpace(TrimPrefix(line, GeomKey))] else []
  }

  lemma GeomStepShape(st: GeomState, raw: string)
    requires forall d :: d in Flush(st) ==> GeomDisk(d)
    ensures Names(Flush(GeomStep(st, raw))) == Names(Flush(st)) + HeaderName(raw)
    ensures forall d :: d in Flush(GeomStep(st, raw)) ==> GeomDisk(d)
  {
    var line := TrimSpace(raw);
    if HasPrefix(line, GeomKey) {
      GeomHeaderShape(st, raw);
    } else if st.current.Some? && HasPrefix(line, MediasizeKey) {
      GeomMediasizeNames(st, raw);
    } else {
      GeomOtherLine(st, raw);
    }
  }

  /** Any other line changes nothing. */
  lemma GeomOtherLine(st: GeomState, raw: string)
    requires !HasPrefix(TrimSpace(raw), GeomKey)
    requires !(st.current.Some? && HasPrefix(TrimSpace(raw), MediasizeKey))
    ensures GeomStep(st, raw) == st && HeaderName(raw) == []
  {
  }

  /** A "Mediasize:" line keeps the names and the shape of the disks read so far. */
  lemma GeomMediasizeNames(st: GeomState, raw: string)
    requires !HasPrefix(TrimSpace(raw), GeomKey) && HasPrefix(TrimSpace(raw), MediasizeKey)
    requires forall d :: d in Flush(st) ==> GeomDisk(d)
    requires st.current.Some?
    ensures Names(Flush(GeomStep(st, raw))) == Names(Flush(st)) + HeaderName(raw)
    ensures forall d :: d in Flush(GeomStep(st, raw)) ==> GeomDisk(d)
  {
    assert HeaderName(raw) == [];
    assert Flush(st) == st.done + [st.current.value];
    GeomMediasizeShape(st, raw);
    var st' := GeomStep(st, raw);
    assert Flush(st') == st.done + [st'.current.value];
    NamesSnoc(st.done, st.current.value);
    NamesSnoc(st.done, st'.current.value);
  }

  lemma GeomHeaderShape(st: GeomState, raw: string)
    requires HasPrefix(TrimSpace(raw), GeomKey)
    ensures Names(Flush(GeomStep(st, raw))) == Names(Flush(st)) + HeaderName(raw)
    ensures Flush(GeomStep(st, raw)) == Flush(st) + [NewDevice(TrimSpace(TrimPrefix(TrimSpace(raw), GeomKey)))]
  {
    NamesSnoc(Flush(st), NewDevice(TrimSpace(TrimPrefix(TrimSpace(raw), GeomKey))));
  }

  lemma GeomMediasizeShape(st: GeomState, raw: string)
    requires !HasPrefix(TrimSpace(raw), GeomKey)
    requires st.current.Some? && GeomDisk(st.current.value)
    ensures GeomStep(st, raw).done == st.done
    ensures GeomStep(st, raw).current.Some?
    ensures GeomDisk(GeomStep(st, raw).current.value)
    ensures GeomStep(st, raw).current.value.name == st.current.value.name
  {
    var line := TrimSpace(raw);
    var parts := Fields(line);
    if HasPrefix(line, MediasizeKey) && |parts| >= 2 && ScanUint64(parts[1]).Some? {
      ScanUint64Range(parts[1]);
    }
  }

  /**
   * One disk per "Geom name:" line, in order, each carrying only its name,
   * its /dev path and its size.
   */
  lemma {:induction false} GeomFoldShape(lines: seq<string>)
    ensures Names(Flush(GeomFold(lines))) == HeaderNames(lines)
    ensures forall d :: d in Flush(GeomFold(lines)) ==> GeomDisk(d)
    decreases |lines|
  {
    if lines != [] {
      var init := lines[..|lines| - 1];
      GeomFoldShape(init);
      GeomStepShape(GeomFold(init), lines[|lines| - 1]);
    }
  }

  lemma ParseGeomDiskListShape(output: string)
    ensures var ds := ParseGeomDiskListSpec(output);
      && Names(ds) == HeaderNames(ScanLines(output))
      && forall d :: d in ds ==> GeomDisk(d)
  {
    GeomFoldShape(ScanLines(output));
  }

  // ---------------------------------------------------------------------
  // Removable check

  /** A `camcontrol devlist` line naming the device and mentioning USB or mass storage. */
  predicate UsbDevlistLine(line: string, name: string) {
    Contains(line, name) && (Contains(ToLower(line), "usb") || Contains(ToLower(line), "mass storage"))
  }

  /** The device name starts with "da" or "umass", or camcontrol lists it as a USB device. */
  predicate IsRemovable(host: Host, name: string) {
    || HasPrefix(name, "da") || HasPrefix(name, "umass")
    || (host.camcontrolDevlist.Some?
        && exists line :: line in ScanLines(host.camcontrolDevlist.value) && UsbDevlistLine(line, name))
  }

  /**
   * isRemovableDevice: a "da" or "umass" name is removable whatever the
   * bus listing says; any other name only when camcontrol lists it.
   */
  method IsRemovableDevice(host: Host, name: string) returns (removable: bool)
    ensures removable == IsRemovable(host, name)
    ensures HasPrefix(name, "da") || HasPrefix(name, "umass") ==> removable
    ensures host.camcontrolDevlist.None? ==> (removable <==> HasPrefix(name, "da") || HasPrefix(name, "umass"))
  {
    if HasPrefix(name, "da") || HasPrefix(name, "umass") {
      return true;
    }
    if host.camcontrolDevlist.None? {
      return false;
    }
    var lines := ScanLines(host.camcontrolDevlist.value);
    for i := 0 to |lines|
      invariant forall j :: 0 <= j < i ==> !UsbDevlistLine(lines[j], name)
    {
      var line := lines[i];
      if Contains(line, name) {
        if Contains(ToLower(line), "usb") || Contains(ToLower(line), "mass storage") {
          assert line in lines;
          return true;
        }
      }
    }
    return false;
  }

  // ---------------------------------------------------------------------
  // gpart show -p

  /** The first of fields[i..] that starts with `prefix`. */
  function FirstWithPrefix(fields: seq<string>, i: nat, prefix: string): (r: Option<string>)
    decreases |fields| - i
    ensures r.None? <==> forall j :: i <= j < |fields| ==> !HasPrefix(fields[j], prefix)
    ensures r.Some? ==> exists j :: i <= j < |fields| && fields[j] == r.value
                          && HasPrefix(r.value, prefix)
                          && forall m :: i <= m < j ==> !HasPrefix(fields[m], prefix)
  {
    if i >= |fields| then None
    else if HasPrefix(fields[i], prefix) then Some(fields[i])
    else FirstWithPrefix(fields, i + 1, prefix)
  }

  /** The partition a gpart row names: a numeric start, at least four fields, and a field from the fourth on that starts with the disk name. */
  function PartitionRow(raw: string, diskName: string): (r: Option<string>)
    ensures r.Some? ==> HasPrefix(r.value, diskName) && r.value != ""
  {
    var line := TrimSpace(raw);
    var fields := Fields(line);
    if |fields| >= 4 && !HasPrefix(line, "=>") && (assert fields[0] in fields; IsDigit(fields[0][0])) then
      var r := FirstWithPrefix(fields, 3, diskName);
      assert r.Some? ==> r.value in fields;
      r
    else None
  }

  /** The partition-name search of getPartitions; "" when no field qualifies. */
  method FindPartitionName(fields: seq<string>, diskName: string) returns (partName: string)
    requires forall w :: w in fields ==> IsWord(w)
    ensures partName == match FirstWithPrefix(fields, 3, diskName) case Some(n) => n case None => ""
  {
    partName := "";
    var i := 3;
    while i < |fields|
      invariant 3 <= i
      invariant FirstWithPrefix(fields, 3, diskName) == FirstWithPrefix(fields, i, diskName)
    {
      if HasPrefix(fields[i], diskName) {
        partName := fields[i];
        return;
      }
      i := i + 1;
    }
  }

  function NewPartition(name: string): Device {
    NewDevice(name).(isPartition := true, isRemovable := true)
  }

  /** A partition record after the filesystem probe and the mount-status check. */
  function ProbePartition(host: Host, name: string): Device {
    CheckMountStatusSpec(host, DetectFilesystemSpec(host, NewPartition(name)))
  }

  function PartitionsFold(host: Host, diskName: string, lines: seq<string>): seq<Device>
    decreases |lines|
  {
    if lines == [] then []
    else
      PartitionsFold(host, diskName, lines[..|lines| - 1])
        + match PartitionRow(lines[|lines| - 1], diskName)
          case Some(n) => [ProbePartition(host, n)]
          case None => []
  }

  /** getPartitions: no partitions when gpart fails. */
  function PartitionsSpec(host: Host, diskName: string): seq<Device> {
    if diskName in host.gpartShow then PartitionsFold(host, diskName, ScanLines(host.gpartShow[diskName]))
    else []
  }

  /** getPartitions. */
  method GetPartitions(host: Host, diskName: string) returns (partitions: seq<Device>)
    ensures partitions == PartitionsSpec(host, diskName)
  {
    partitions := [];
    if diskName !in host.gpartShow {
      return;
    }
    var lines := ScanLines(host.gpartShow[diskName]);
    for i := 0 to |lines|
      invariant partitions == PartitionsFold(host, diskName, lines[..i])
    {
      var found := PartitionLine(host, diskName, lines[i]);
      partitions := partitions + found;
      assert lines[..i + 1][..i] == lines[..i];
    }
    assert lines[..|lines|] == lines;
  }

  /** One gpart row of getPartitions: the probed partition it names, if any. */
  method PartitionLine(host: Host, diskName: string, raw: string) returns (found: seq<Device>)
    ensures found == match PartitionRow(raw, diskName) case Some(n) => [ProbePartition(host, n)] case None => []
  {
    found := [];
    var line := TrimSpace(raw);
    var fields := Fields(line);
    if |fields| >= 4 && !HasPrefix(line, "=>") {
      assert fields[0] in fields;
      if |fields[0]| > 0 && IsDigit(fields[0][0]) {
        var partName := FindPartitionName(fields, diskName);
        if partName != "" {
          var part := NewPartition(partName);
          part := DetectFilesystem(host, part);
          part := CheckMountStatus(host, part);
          found := [part];
        }
      }
    }
  }

  /** What getPartitions yields: partitions, marked removable, named after the disk, with their /dev path. */
  predicate PartitionOf(p: Device, diskName: string) {
    p.isPartition && p.isRemovable && HasPrefix(p.name, diskName) && p.path == "/dev/" + p.name
  }

  lemma ProbePartitionShape(host: Host, name: string)
    ensures var p := ProbePartition(host, name);
      p.name == name && p.path == "/dev/" + name && p.isPartition && p.isRemovable
  {
    var d := NewPartition(name);
    DetectFilesystemEffect(host, d);
    CheckMountStatusEffect(host, DetectFilesystemSpec(host, d));
  }

  lemma {:induction false} PartitionsFoldShape(host: Host, diskName: string, lines: seq<string>)
    ensures forall p :: p in PartitionsFold(host, diskName, lines) ==> PartitionOf(p, diskName)
    decreases |lines|
  {
    if lines != [] {
      PartitionsFoldShape(host, diskName, lines[..|lines| - 1]);
      var row := PartitionRow(lines[|lines| - 1], diskName);
      if row.Some? {
        ProbePartitionShape(host, row.value);
      }
    }
  }

  lemma PartitionsShape(host: Host, diskName: string)
    ensures forall p :: p in PartitionsSpec(host, diskName) ==> PartitionOf(p, diskName)
  {
    if diskName in host.gpartShow {
      PartitionsFoldShape(host, diskName, ScanLines(host.gpartShow[diskName]));
    }
  }

  // ---------------------------------------------------------------------
  // scanFreeBSD

  /** Each removable disk, marked removable, followed by its partitions; other disks are dropped. */
  function DisksFold(host: Host, disks: seq<Device>): seq<Device>
    decreases |disks|
  {
    if disks == [] then []
    else
      DisksFold(host, disks[..|disks| - 1]) + DiskEntries(host, disks[|disks| - 1])
  }

  /** What scanFreeBSD reports for one disk. */
  function DiskEntries(host: Host, d: Device): seq<Device> {
    if IsRemovable(host, d.name) then [d.(isRemovable := true)] + PartitionsSpec(host, d.name) else []
  }

  /** scanFreeBSD: None when `geom disk list` fails. */
  function ScanFreeBSDSpec(host: Host): Option<seq<Device>> {
    match host.geomDiskList
    case None => None
    case Some(out) => Some(DisksFold(host, ParseGeomDiskListSpec(out)))
  }

  /** One disk of scanFreeBSD's loop: the disk and its partitions when it is removable. */
  method ScanDisk(host: Host, disk: Device) returns (entries: seq<Device>)
    ensures entries == DiskEntries(host, disk)
  {
    entries := [];
    var removable := IsRemovableDevice(host, disk.name);
    var d := disk.(isRemovable := removable);
    if removable {
      entries := entries + [d];
      var partitions := GetPartitions(host, d.name);
      entries := entries + partitions;
    }
  }

  /** scanFreeBSD. */
  method ScanFreeBSD(host: Host) returns (r: Option<seq<Device>>)
    ensures r == ScanFreeBSDSpec(host)
  {
    if host.geomDiskList.None? {
      return None;
    }
    var disks := ParseGeomDiskList(host.geomDiskList.value);
    var devices: seq<Device> := [];
    for i := 0 to |disks|
      invariant devices == DisksFold(host, disks[..i])
    {
      assert DisksFold(host, disks[..i + 1]) == DisksFold(host, disks[..i]) + DiskEntries(host, disks[i]) by {
        assert disks[..i + 1][..i] == disks[..i];
      }
      var entries := ScanDisk(host, disks[i]);
      devices := devices + entries;
    }
    assert disks[..|disks|] == disks;
    return Some(devices);
  }

  /** The whole disks of a device list, in order. */
  function WholeDisks(ds: seq<Device>): seq<Device>
    decreases |ds|
  {
    if ds == [] then []
    else WholeDisks(ds[..|ds| - 1]) + if ds[|ds| - 1].isPartition then [] else [ds[|ds| - 1]]
  }

  lemma {:induction false} WholeDisksAppend(a: seq<Device>, b: seq<Device>)
    ensures WholeDisks(a + b) == WholeDisks(a) + WholeDisks(b)
    decreases |b|
  {
    if b != [] {
      assert (a + b)[..|a + b| - 1] == a + b[..|b| - 1];
      WholeDisksAppend(a, b[..|b| - 1]);
    } else {
      assert a + b == a;
    }
  }

  lemma {:induction false} NoWholeDisks(ds: seq<Device>)
    requires forall d :: d in ds ==> d.isPartition
    ensures WholeDisks(ds) == []
    decreases |ds|
  {
    if ds != [] {
      NoWholeDisks(ds[..|ds| - 1]);
    }
  }

  /** The removable disks among `disks`, marked removable, in order. */
  function RemovableDisks(host: Host, disks: seq<Device>): seq<Device>
    decreases |disks|
  {
    if disks == [] then []
    else
      var d := disks[|disks| - 1];
      RemovableDisks(host, disks[..|disks| - 1]) + if IsRemovable(host, d.name) then [d.(isRemovable := true)] else []
  }

  /**
   * Every device scanFreeBSD reports is removable, and its whole disks are
   * exactly the removable disks geom lists, in geom's order.
   */
  lemma {:induction false} DisksFoldShape(host: Host, disks: seq<Device>)
    requires forall d :: d in disks ==> !d.isPartition
    ensures forall d :: d in DisksFold(host, disks) ==> d.isRemovable
    ensures WholeDisks(DisksFold(host, disks)) == RemovableDisks(host, disks)
    decreases |disks|
  {
    if disks != [] {
      var init := disks[..|disks| - 1];
      var d := disks[|disks| - 1];
      DisksFoldShape(host, init);
      DiskEntriesShape(host, d);
      WholeDisksAppend(DisksFold(host, init), DiskEntries(host, d));
    }
  }

  /** One disk's entries: all removable, and the disk itself is the only whole disk among them. */
  lemma DiskEntriesShape(host: Host, d: Device)
    requires !d.isPartition
    ensures forall e :: e in DiskEntries(host, d) ==> e.isRemovable
    ensures WholeDisks(DiskEntries(host, d)) == if IsRemovable(host, d.name) then [d.(isRemovable := true)] else []
  {
    if IsRemovable(host, d.name) {
      var disk := d.(isRemovable := true);
      var parts := PartitionsSpec(host, d.name);
      assert DiskEntries(host, d) == [disk] + parts;
      PartitionsShape(host, d.name);
      assert forall p :: p in parts ==> p.isPartition && p.isRemovable;
      NoWholeDisks(parts);
      WholeDisksAppend([disk], parts);
      assert WholeDisks([disk]) == [disk];
    }
  }

  lemma ScanFreeBSDShape(host: Host)
    requires host.geomDiskList.Some?
    ensures var ds := ScanFreeBSDSpec(host).value;
      var disks := ParseGeomDiskListSpec(host.geomDiskList.value);
      && (forall d :: d in ds ==> d.isRemovable)
      && WholeDisks(ds) == RemovableDisks(host, disks)
  {
    var disks := ParseGeomDiskListSpec(host.geomDiskList.value);
    ParseGeomDiskListShape(host.geomDiskList.value);
    forall d | d in disks ensures !d.isPartition {
      assert GeomDisk(d);
    }
    DisksFoldShape(host, disks);
  }
}
