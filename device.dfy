/**
 * The device record of device/device.go, the host tool outputs the
 * discovery code reads, and the two naming helpers GetDisplayName and
 * GetMountDirectory.
 */
module DeviceRecord {
  import opened Text
  import opened Wrappers
  import Paths

  /**
   * One discovered disk or partition. `size` is a Go uint64 and stays below
   * 2^64 wherever the parsers set it.
   */
  datatype Device = Device(
    name: string,
    path: string,
    volumeLabel: string,
    uuid: string,
    fsType: string,
    size: nat,
    mountPoint: string,
    isMounted: bool,
    isEncrypted: bool,
    isUnlocked: bool,
    isPartition: bool,
    isRemovable: bool,
    partitionNum: int)

  /** A record holding only a name and the device node "/dev/" + name. */
  function NewDevice(name: string): (d: Device)
    ensures d.name == name && d.path == "/dev/" + name
    ensures !d.isMounted && !d.isPartition && !d.isRemovable && d.size == 0
  {
    Device(name, "/dev/" + name, "", "", "", 0, "", false, false, false, false, false, 0)
  }

  /**
   * What the external tools print, as seen by one scan. Maps are keyed by
   * the tool's argument; a missing key or None means the tool failed.
   */
  datatype Host = Host(
    geomDiskList: Option<string>,        // geom disk list
    camcontrolDevlist: Option<string>,   // camcontrol devlist
    gpartShow: map<string, string>,      // gpart show -p <disk name>
    fileProbe: map<string, string>,      // file -s <device path>
    glabelStatus: Option<string>,        // glabel status
    dumpe2fs: map<string, string>,       // dumpe2fs -h <device path>
    mtab: Option<string>,                // contents of /etc/mtab; None when it cannot be opened
    mountTable: Option<string>,          // mount (no arguments)
    lsblk: Option<string>,               // lsblk -J -o NAME,SIZE,TYPE,...
    blkid: map<string, string>,          // blkid -o export <device path>
    sysBlockScan: Option<seq<Device>>)   // outcome of the /sys/block fallback scan

  /** GetDisplayName slices the first 8 characters of a non-empty UUID when there is no label. */
  predicate HasDisplayName(d: Device) {
    d.volumeLabel != "" || d.uuid == "" || |d.uuid| >= 8
  }

  /** The label, else a UUID prefix, else the device name. */
  function GetDisplayName(d: Device): (r: string)
    requires HasDisplayName(d)
    ensures d.volumeLabel != "" ==> r == d.volumeLabel
    ensures d.volumeLabel == "" && d.uuid != "" ==> r == d.uuid[..8] + "..."
    ensures d.volumeLabel == "" && d.uuid == "" ==> r == d.name
  {
    if d.volumeLabel != "" then d.volumeLabel
    else if d.uuid != "" then d.uuid[..8] + "..."
    else d.name
  }

  /** The display name with every '/' and every ' ' turned into '_'. */
  function SanitizeName(name: string): (r: string)
    ensures |r| == |name|
    ensures forall i :: 0 <= i < |name| ==>
      r[i] == if name[i] == '/' || name[i] == ' ' then '_' else name[i]
  {
    var once := ReplaceAll(name, "/", "_");
    ReplaceCharAt(name, '/', '_');
    ReplaceCharAt(once, ' ', '_');
    ReplaceAll(once, " ", "_")
  }

  /** The mount directory: the sanitized display name joined under `base`. */
  function GetMountDirectory(d: Device, base: string): string
    requires HasDisplayName(d)
  {
    Paths.JoinPath(base, SanitizeName(GetDisplayName(d)))
  }

  /**
   * For a clean base directory and a display name other than "", "." and
   * "..", the mount directory is one level below the base, and its last
   * component holds neither '/' nor ' '.
   */
  lemma MountDirectoryUnderBase(d: Device, base: string)
    requires HasDisplayName(d)
    requires Paths.Clean(base) == base && base != "/" && base != "."
    requires GetDisplayName(d) != "" && GetDisplayName(d) != "." && GetDisplayName(d) != ".."
    ensures var leaf := SanitizeName(GetDisplayName(d));
      && GetMountDirectory(d, base) == base + "/" + leaf
      && forall i :: 0 <= i < |leaf| ==> leaf[i] != '/' && leaf[i] != ' '
  {
    var name := GetDisplayName(d);
    var leaf := SanitizeName(name);
    Paths.JoinPlainName(base, leaf);
  }

  /**
   * Sanitizing leaves '.' alone, so a device labelled ".." under a one-level
   * base such as "/media" is mounted on "/" itself.
   */
  lemma DotDotLabelMountsOnRoot(d: Device, dir: string)
    requires d.volumeLabel == ".."
    requires Paths.IsPlainName(dir)
    ensures GetMountDirectory(d, "/" + dir) == "/"
  {
    assert SanitizeName("..") == "..";
    Paths.JoinDotDotLeavesBase(dir);
  }
}
