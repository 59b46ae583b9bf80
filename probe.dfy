/**
 * Per-device probing in device/device.go: the filesystem type from `file -s`
 * (or `blkid` on Linux), the label and UUID from `glabel status` and
 * `dumpe2fs -h`, and the mount status from /etc/mtab or `mount`.
 *
 * Each probe reads a tool's output line by line and overwrites fields of the
 * device whenever a line matches; it is specified by a fold over the lines
 * (the state after line n is a step applied to the state after the first
 * n - 1 lines), so a later matching line overrides an earlier one.
 */
module Probe {
  import opened Text
  import opened Wrappers
  import opened DeviceRecord

  // ---------------------------------------------------------------------
  // Filesystem type from `file -s`

  /** The markers detectFilesystem looks for, in the order it tests them, and the type each gives. */
  const FsMarkers: seq<(string, string)> := [
    ("ext4", "ext4"), ("ext3", "ext3"), ("ext2", "ext2"),
    ("FAT", "msdosfs"), ("NTFS", "ntfs"), ("UFS", "ufs"), ("ZFS", "zfs")]

  /** The first marker of FsMarkers that occurs in `info` is the one at index `k`. */
  predicate FirstMarkerAt(info: string, k: int) {
    0 <= k < |FsMarkers| && Contains(info, FsMarkers[k].0)
    && forall j :: 0 <= j < k ==> !Contains(info, FsMarkers[j].0)
  }

  /**
   * The filesystem type `file -s` output names: the type of the first marker
   * that occurs, and `current` when none does.
   */
  function ClassifyFilesystem(info: string, current: string): (r: string)
    ensures forall k :: FirstMarkerAt(info, k) ==> r == FsMarkers[k].1
    ensures (forall k :: 0 <= k < |FsMarkers| ==> !Contains(info, FsMarkers[k].0)) ==> r == current
  {
    assert FsMarkers[0].0 == "ext4" && FsMarkers[1].0 == "ext3" && FsMarkers[2].0 == "ext2";
    assert FsMarkers[3].0 == "FAT" && FsMarkers[4].0 == "NTFS" && FsMarkers[5].0 == "UFS" && FsMarkers[6].0 == "ZFS";
    if Contains(info, "ext2") || Contains(info, "ext3") || Contains(info, "ext4") then
      if Contains(info, "ext4") then "ext4"
      else if Contains(info, "ext3") then "ext3"
      else "ext2"
    else if Contains(info, "FAT") then "msdosfs"
    else if Contains(info, "NTFS") then "ntfs"
    else if Contains(info, "UFS") then "ufs"
    else if Contains(info, "ZFS") then "zfs"
    else current
  }

  // ---------------------------------------------------------------------
  // Label from `glabel status`

  /** A `glabel status` line mentioning the device name sets the label to its first field. */
  function GlabelStep(d: Device, name: string, line: string): Device {
    if Contains(line, name) then
      var fields := Fields(line);
      if |fields| >= 1 then d.(volumeLabel := fields[0]) else d
    else d
  }

  function GlabelScan(d: Device, name: string, lines: seq<string>): Device
    decreases |lines|
  {
    if lines == [] then d
    else GlabelStep(GlabelScan(d, name, lines[..|lines| - 1]), name, lines[|lines| - 1])
  }

  /** glabel changes only the label, and only when some line mentions the device name. */
  lemma {:induction false} GlabelScanEffect(d: Device, name: string, lines: seq<string>)
    ensures var r := GlabelScan(d, name, lines);
      && r == d.(volumeLabel := r.volumeLabel)
      && (r.volumeLabel == d.volumeLabel || exists k :: 0 <= k < |lines| && Contains(lines[k], name))
    decreases |lines|
  {
    if lines != [] {
      var init := lines[..|lines| - 1];
      GlabelScanEffect(d, name, init);
      if GlabelScan(d, name, lines).volumeLabel != GlabelScan(d, name, init).volumeLabel {
        assert Contains(lines[|lines| - 1], name);
      } else if GlabelScan(d, name, init).volumeLabel != d.volumeLabel {
        var k :| 0 <= k < |init| && Contains(init[k], name);
        assert lines[k] == init[k];
      }
    }
  }

  // ---------------------------------------------------------------------
  // UUID and volume name from `dumpe2fs -h`

  const UuidKey: string := "Filesystem UUID:"
  const VolumeKey: string := "Filesystem volume name:"

  function DumpeStep(d: Device, line: string): Device {
    if HasPrefix(line, UuidKey) then d.(uuid := TrimSpace(TrimPrefix(line, UuidKey)))
    else if HasPrefix(line, VolumeKey) then
      var name := TrimSpace(TrimPrefix(line, VolumeKey));
      if name != "<none>" && name != "" then d.(volumeLabel := name) else d
    else d
  }

  /** The record after the `dumpe2fs -h` lines, read in order. */
  function DumpeScan(d: Device, lines: seq<string>): Device
    decreases |lines|
  {
    if lines == [] then d
    else DumpeStep(DumpeScan(d, lines[..|lines| - 1]), lines[|lines| - 1])
  }

  /** Only the UUID and the label change, and a volume name of "<none>" or "" never becomes the label. */
  lemma DumpeStepEffect(d: Device, line: string)
    ensures var r := DumpeStep(d, line);
      && r == d.(volumeLabel := r.volumeLabel, uuid := r.uuid)
      && (r.volumeLabel == d.volumeLabel || (r.volumeLabel != "<none>" && r.volumeLabel != ""))
  {
  }

  lemma {:induction false} DumpeScanEffect(d: Device, lines: seq<string>)
    ensures var r := DumpeScan(d, lines);
      && r == d.(volumeLabel := r.volumeLabel, uuid := r.uuid)
      && (r.volumeLabel == d.volumeLabel || (r.volumeLabel != "<none>" && r.volumeLabel != ""))
    decreases |lines|
  {
    if lines != [] {
      DumpeScanEffect(d, lines[..|lines| - 1]);
      DumpeStepEffect(DumpeScan(d, lines[..|lines| - 1]), lines[|lines| - 1]);
    }
  }

  /** The UUID dumpe2fs reports is the one on the last "Filesystem UUID:" line. */
  lemma {:induction false} DumpeLastUuidWins(d: Device, lines: seq<string>, k: int)
    requires 0 <= k < |lines| && HasPrefix(lines[k], UuidKey)
    requires forall j :: k < j < |lines| ==> !HasPrefix(lines[j], UuidKey)
    ensures DumpeScan(d, lines).uuid == TrimSpace(TrimPrefix(lines[k], UuidKey))
    decreases |lines|
  {
    var init := lines[..|lines| - 1];
    if k < |lines| - 1 {
      assert init[k] == lines[k];
      DumpeLastUuidWins(d, init, k);
    }
  }

  // ---------------------------------------------------------------------
  // extractMetadata and detectFilesystem

  function ExtractMetadataSpec(host: Host, d: Device): Device {
    var d1 := if host.glabelStatus.Some? then GlabelScan(d, d.name, ScanLines(host.glabelStatus.value)) else d;
    if HasPrefix(d1.fsType, "ext") && d1.path in host.dumpe2fs then
      DumpeScan(d1, ScanLines(host.dumpe2fs[d1.path]))
    else d1
  }

  /** extractMetadata: glabel first, then dumpe2fs for an ext filesystem. */
  method ExtractMetadata(host: Host, dev: Device) returns (r: Device)
    ensures r == ExtractMetadataSpec(host, dev)
  {
    r := dev;
    if host.glabelStatus.Some? {
      r := ReadGlabel(dev, ScanLines(host.glabelStatus.value));
    }
    if HasPrefix(r.fsType, "ext") && r.path in host.dumpe2fs {
      r := ReadDumpe(r, ScanLines(host.dumpe2fs[r.path]));
    }
  }

  /** The glabel loop of extractMetadata: the first field of each line naming the device becomes the label. */
  method ReadGlabel(dev: Device, lines: seq<string>) returns (r: Device)
    ensures r == GlabelScan(dev, dev.name, lines)
  {
    r := dev;
    for i := 0 to |lines|
      invariant r == GlabelScan(dev, dev.name, lines[..i])
    {
      var line := lines[i];
      if Contains(line, dev.name) {
        var fields := Fields(line);
        if |fields| >= 1 {
          r := r.(volumeLabel := fields[0]);
        }
      }
      assert lines[..i + 1][..i] == lines[..i];
    }
    assert lines[..|lines|] == lines;
  }

  /** The dumpe2fs loop of extractMetadata. */
  method ReadDumpe(d: Device, lines: seq<string>) returns (r: Device)
    ensures r == DumpeScan(d, lines)
  {
    r := d;
    for i := 0 to |lines|
      invariant r == DumpeScan(d, lines[..i])
    {
      r := ReadDumpeLine(r, lines[i]);
      assert lines[..i + 1][..i] == lines[..i];
    }
    assert lines[..|lines|] == lines;
  }

  /** One dumpe2fs line: a UUID line sets the UUID, a volume-name line other than "<none>" or "" the label. */
  method ReadDumpeLine(d: Device, line: string) returns (r: Device)
    ensures r == DumpeStep(d, line)
  {
    r := d;
    if HasPrefix(line, UuidKey) {
      r := r.(uuid := TrimSpace(TrimPrefix(line, UuidKey)));
    } else if HasPrefix(line, VolumeKey) {
      var name := TrimSpace(TrimPrefix(line, VolumeKey));
      if name != "<none>" && name != "" {
        r := r.(volumeLabel := name);
      }
    }
  }

  function DetectFilesystemSpec(host: Host, d: Device): Device {
    if d.path !in host.fileProbe then d
    else
      var info := host.fileProbe[d.path];
      ExtractMetadataSpec(host, d.(fsType := ClassifyFilesystem(info, d.fsType),
                                   isEncrypted := d.isEncrypted || Contains(info, "GELI")))
  }

  /** detectFilesystem: classify the `file -s` output, flag GELI, then extract label and UUID. */
  method DetectFilesystem(host: Host, dev: Device) returns (r: Device)
    ensures r == DetectFilesystemSpec(host, dev)
  {
    r := dev;
    if dev.path in host.fileProbe {
      var info := host.fileProbe[dev.path];
      r := r.(fsType := ClassifyFilesystem(info, r.fsType));
      if Contains(info, "GELI") {
        r := r.(isEncrypted := true);
      }
      r := ExtractMetadata(host, r);
    }
  }

  /** extractMetadata changes only the label and the UUID. */
  lemma ExtractMetadataEffect(host: Host, d: Device)
    ensures var r := ExtractMetadataSpec(host, d);
      r == d.(volumeLabel := r.volumeLabel, uuid := r.uuid)
  {
    var d1 := if host.glabelStatus.Some? then GlabelScan(d, d.name, ScanLines(host.glabelStatus.value)) else d;
    if host.glabelStatus.Some? {
      GlabelScanEffect(d, d.name, ScanLines(host.glabelStatus.value));
    }
    if HasPrefix(d1.fsType, "ext") && d1.path in host.dumpe2fs {
      DumpeScanEffect(d1, ScanLines(host.dumpe2fs[d1.path]));
    }
  }

  /**
   * Probing changes only the filesystem type, the encryption flag, the label
   * and the UUID; the encryption flag is set exactly when `file -s` mentions
   * GELI (or it was already set); a failed `file -s` changes nothing.
   */
  lemma DetectFilesystemEffect(host: Host, d: Device)
    ensures var r := DetectFilesystemSpec(host, d);
      && r == d.(fsType := r.fsType, isEncrypted := r.isEncrypted, volumeLabel := r.volumeLabel, uuid := r.uuid)
      && r.isEncrypted == (d.isEncrypted || (d.path in host.fileProbe && Contains(host.fileProbe[d.path], "GELI")))
      && (d.path !in host.fileProbe ==> r == d)
  {
    if d.path in host.fileProbe {
      var info := host.fileProbe[d.path];
      ExtractMetadataEffect(host, d.(fsType := ClassifyFilesystem(info, d.fsType),
                                     isEncrypted := d.isEncrypted || Contains(info, "GELI")));
    }
  }

  // ---------------------------------------------------------------------
  // Linux: blkid -o export

  function BlkidStep(d: Device, line: string): Device {
    if HasPrefix(line, "TYPE=") then d.(fsType := TrimPrefix(line, "TYPE="))
    else if HasPrefix(line, "LABEL=") then d.(volumeLabel := TrimPrefix(line, "LABEL="))
    else if HasPrefix(line, "UUID=") then d.(uuid := TrimPrefix(line, "UUID="))
    else d
  }

  function BlkidScan(d: Device, lines: seq<string>): Device
    decreases |lines|
  {
    if lines == [] then d
    else BlkidStep(BlkidScan(d, lines[..|lines| - 1]), lines[|lines| - 1])
  }

  /** The type blkid reports is the value of the last TYPE= line. */
  lemma {:induction false} BlkidLastTypeWins(d: Device, lines: seq<string>, k: int)
    requires 0 <= k < |lines| && HasPrefix(lines[k], "TYPE=")
    requires forall j :: k < j < |lines| ==> !HasPrefix(lines[j], "TYPE=")
    ensures BlkidScan(d, lines).fsType == lines[k][5..]
    decreases |lines|
  {
    var init := lines[..|lines| - 1];
    if k < |lines| - 1 {
      assert init[k] == lines[k];
      BlkidLastTypeWins(d, init, k);
    }
  }

  function DetectFilesystemLinuxSpec(host: Host, d: Device): Device {
    var d1 := if d.path in host.blkid then BlkidScan(d, ScanLines(host.blkid[d.path])) else d;
    if d1.fsType == "" then DetectFilesystemSpec(host, d1) else d1
  }

  /** detectFilesystemLinux: blkid first, `file -s` only when no type was found. */
  method DetectFilesystemLinux(host: Host, dev: Device) returns (r: Device)
    ensures r == DetectFilesystemLinuxSpec(host, dev)
  {
    r := dev;
    if dev.path in host.blkid {
      var lines := ScanLines(host.blkid[dev.path]);
      for i := 0 to |lines|
        invariant r == BlkidScan(dev, lines[..i])
      {
        var line := lines[i];
        if HasPrefix(line, "TYPE=") {
          r := r.(fsType := TrimPrefix(line, "TYPE="));
        } else if HasPrefix(line, "LABEL=") {
          r := r.(volumeLabel := TrimPrefix(line, "LABEL="));
        } else if HasPrefix(line, "UUID=") {
          r := r.(uuid := TrimPrefix(line, "UUID="));
        }
        assert lines[..i + 1][..i] == lines[..i];
      }
      assert lines[..|lines|] == lines;
    }
    if r.fsType == "" {
      r := DetectFilesystem(host, r);
    }
  }

  // ---------------------------------------------------------------------
  // Mount status: /etc/mtab, else `mount`

  /** An mtab line for `path`: it starts with the path and a space and has at least two fields. */
  predicate MtabEntry(path: string, line: string) {
    HasPrefix(line, path + " ") && |Fields(line)| >= 2
  }

  function MtabStep(d: Device, path: string, line: string): Device {
    if MtabEntry(path, line) then d.(mountPoint := Fields(line)[1], isMounted := true) else d
  }

  function MtabScan(d: Device, path: string, lines: seq<string>): Device
    decreases |lines|
  {
    if lines == [] then d
    else MtabStep(MtabScan(d, path, lines[..|lines| - 1]), path, lines[|lines| - 1])
  }

  /** Reading the mount table changes at most the mount point and sets the mounted flag. */
  lemma {:induction false} MtabScanEffect(d: Device, path: string, lines: seq<string>)
    ensures var r := MtabScan(d, path, lines);
      r == d || r == d.(mountPoint := r.mountPoint, isMounted := true)
    decreases |lines|
  {
    if lines != [] {
      MtabScanEffect(d, path, lines[..|lines| - 1]);
    }
  }

  /** With no entry for the path the device is left as it was. */
  lemma {:induction false} MtabNoEntry(d: Device, path: string, lines: seq<string>)
    requires forall k :: 0 <= k < |lines| ==> !MtabEntry(path, lines[k])
    ensures MtabScan(d, path, lines) == d
    decreases |lines|
  {
    if lines != [] {
      var init := lines[..|lines| - 1];
      assert forall k :: 0 <= k < |init| ==> init[k] == lines[k];
      MtabNoEntry(d, path, init);
    }
  }

  /** Otherwise the device is mounted on the second field of the last entry for the path. */
  lemma {:induction false} MtabLastEntryWins(d: Device, path: string, lines: seq<string>, k: int)
    requires 0 <= k < |lines| && MtabEntry(path, lines[k])
    requires forall j :: k < j < |lines| ==> !MtabEntry(path, lines[j])
    ensures MtabScan(d, path, lines) == d.(mountPoint := Fields(lines[k])[1], isMounted := true)
    decreases |lines|
  {
    var init := lines[..|lines| - 1];
    var prev := MtabScan(d, path, init);
    if k < |lines| - 1 {
      assert init[k] == lines[k];
      MtabLastEntryWins(d, path, init, k);
      assert MtabScan(d, path, lines) == prev;
    } else {
      MtabScanEffect(d, path, init);
      var mp := Fields(lines[k])[1];
      assert MtabScan(d, path, lines) == prev.(mountPoint := mp, isMounted := true);
    }
  }

  /** A `mount` line for `path`: it mentions the path and contains " on ". */
  predicate MountLine(path: string, line: string) {
    Contains(line, path) && Contains(line, " on ")
  }

  /** What follows the first " on ", up to the next " (", trimmed. */
  function MountPointOf(line: string): string {
    var parts := Split(line, " on ");
    if |parts| >= 2 then TrimSpace(Split(parts[1], " (")[0]) else ""
  }

  function MountOutputStep(d: Device, path: string, line: string): Device {
    if Contains(line, path) then
      var parts := Split(line, " on ");
      if |parts| >= 2 then
        var info := Split(parts[1], " (");
        d.(mountPoint := TrimSpace(info[0]), isMounted := true)
      else d
    else d
  }

  function MountOutputScan(d: Device, path: string, lines: seq<string>): Device
    decreases |lines|
  {
    if lines == [] then d
    else MountOutputStep(MountOutputScan(d, path, lines[..|lines| - 1]), path, lines[|lines| - 1])
  }

  /** Reading `mount` output changes at most the mount point and sets the mounted flag. */
  lemma {:induction false} MountOutputScanEffect(d: Device, path: string, lines: seq<string>)
    ensures var r := MountOutputScan(d, path, lines);
      r == d || r == d.(mountPoint := r.mountPoint, isMounted := true)
    decreases |lines|
  {
    if lines != [] {
      MountOutputScanEffect(d, path, lines[..|lines| - 1]);
    }
  }

  /** With no `mount` line for the path the device is left as it was. */
  lemma {:induction false} MountOutputNoLine(d: Device, path: string, lines: seq<string>)
    requires forall k :: 0 <= k < |lines| ==> !MountLine(path, lines[k])
    ensures MountOutputScan(d, path, lines) == d
    decreases |lines|
  {
    if lines != [] {
      var init := lines[..|lines| - 1];
      assert forall k :: 0 <= k < |init| ==> init[k] == lines[k];
      MountOutputNoLine(d, path, init);
    }
  }

  /** One `mount` line changes the record exactly when it is a line for the path. */
  lemma MountOutputStepLine(d: Device, path: string, line: string)
    ensures MountOutputStep(d, path, line)
      == if MountLine(path, line) then d.(mountPoint := MountPointOf(line), isMounted := true) else d
  {
  }

  /** Otherwise the last line for the path decides the mount point. */
  lemma {:induction false} MountOutputLastLineWins(d: Device, path: string, lines: seq<string>, k: int)
    requires 0 <= k < |lines| && MountLine(path, lines[k])
    requires forall j :: k < j < |lines| ==> !MountLine(path, lines[j])
    ensures MountOutputScan(d, path, lines) == d.(mountPoint := MountPointOf(lines[k]), isMounted := true)
    decreases |lines|
  {
    var init := lines[..|lines| - 1];
    var prev := MountOutputScan(d, path, init);
    MountOutputStepLine(prev, path, lines[|lines| - 1]);
    if k < |lines| - 1 {
      assert init[k] == lines[k];
      forall j | k < j < |init|
        ensures !MountLine(path, init[j])
      {
        assert init[j] == lines[j];
      }
      MountOutputLastLineWins(d, path, init, k);
    } else {
      MountOutputScanEffect(d, path, init);
    }
  }

  /** parseMountOutput. */
  method ParseMountOutput(dev: Device, output: string) returns (r: Device)
    ensures r == MountOutputScan(dev, dev.path, ScanLines(output))
  {
    var lines := ScanLines(output);
    r := dev;
    for i := 0 to |lines|
      invariant r == MountOutputScan(dev, dev.path, lines[..i])
    {
      var line := lines[i];
      if Contains(line, dev.path) {
        var parts := Split(line, " on ");
        if |parts| >= 2 {
          var info := Split(parts[1], " (");
          if |info| >= 1 {
            r := r.(mountPoint := TrimSpace(info[0]), isMounted := true);
          }
        }
      }
      assert lines[..i + 1][..i] == lines[..i];
    }
    assert lines[..|lines|] == lines;
  }

  function CheckMountStatusSpec(host: Host, d: Device): Device {
    if host.mtab.Some? then MtabScan(d, d.path, ScanLines(host.mtab.value))
    else if host.mountTable.Some? then MountOutputScan(d, d.path, ScanLines(host.mountTable.value))
    else d
  }

  /** checkMountStatus: /etc/mtab when it can be opened, else the output of `mount`. */
  method CheckMountStatus(host: Host, dev: Device) returns (r: Device)
    ensures r == CheckMountStatusSpec(host, dev)
  {
    if host.mtab.None? {
      if host.mountTable.None? {
        return dev;
      }
      r := ParseMountOutput(dev, host.mountTable.value);
      return;
    }
    var lines := ScanLines(host.mtab.value);
    r := dev;
    for i := 0 to |lines|
      invariant r == MtabScan(dev, dev.path, lines[..i])
    {
      var line := lines[i];
      if HasPrefix(line, dev.path + " ") {
        var fields := Fields(line);
        if |fields| >= 2 {
          r := r.(mountPoint := fields[1], isMounted := true);
        }
      }
      assert lines[..i + 1][..i] == lines[..i];
    }
    assert lines[..|lines|] == lines;
  }

  /** Checking the mount status changes at most the mount point and sets the mounted flag. */
  lemma CheckMountStatusEffect(host: Host, d: Device)
    ensures var r := CheckMountStatusSpec(host, d);
      r == d || r == d.(mountPoint := r.mountPoint, isMounted := true)
  {
    if host.mtab.Some? {
      MtabScanEffect(d, d.path, ScanLines(host.mtab.value));
    } else if host.mountTable.Some? {
      MountOutputScanEffect(d, d.path, ScanLines(host.mountTable.value));
    }
  }
}
