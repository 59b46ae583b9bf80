/**
 * The automounter's configuration (config/config.go): the defaults, the
 * per-device entries and the decisions taken from the first entry that
 * matches a device.
 */
module Config {
  import opened Wrappers

  /**
   * One `device_config` entry. `automount` is None when the entry leaves it
   * unset (a nil *bool in Go).
   */
  datatype DeviceConfig = DeviceConfig(
    idLabel: string,
    idUuid: string,
    devicePath: string,
    ignore: bool,
    automount: Option<bool>,
    options: seq<string>)

  /**
   * Notification settings. The display times are float64 seconds in Go;
   * here they are whole milliseconds, and a notification is sent only when
   * its time is positive.
   */
  datatype NotificationConfig = NotificationConfig(
    enabled: bool,
    timeout: int,
    deviceMounted: int,
    deviceUnmounted: int,
    deviceAdded: int,
    deviceRemoved: int,
    deviceUnlocked: int,
    deviceLocked: int,
    jobFailed: int)

  datatype TrayConfig = TrayConfig(enabled: bool, autoHide: bool, iconName: string)

  datatype GeliConfig = GeliConfig(
    enabled: bool,
    passwordCmd: string,
    cacheTimeout: int,
    keyFiles: map<string, string>)   // UUID -> key file

  datatype Config = Config(
    automount: bool,
    verbose: bool,
    quiet: bool,
    mountBase: string,
    fileManager: string,
    notifications: NotificationConfig,
    tray: TrayConfig,
    devices: seq<DeviceConfig>,
    eventHooks: map<string, string>,
    defaultOptions: map<string, seq<string>>,   // mount_options.default
    geli: GeliConfig)

  /** The built-in options table, keyed by filesystem type. */
  const DefaultOptions: map<string, seq<string>> := map[
    "vfat" := ["locale=en_US.UTF-8", "longnames"],
    "ntfs" := ["locale=en_US.UTF-8"],
    "ext2" := [],
    "ext3" := [],
    "ext4" := [],
    "ufs" := [],
    "zfs" := [],
    "msdos" := ["locale=en_US.UTF-8", "longnames"]]

  /** The configuration used when no file is read. */
  function Default(): (c: Config)
    ensures c.automount && c.mountBase == "/media" && c.notifications.enabled
    ensures c.notifications.deviceMounted == 5000
    ensures c.devices == [] && c.eventHooks == map[]
    ensures !c.tray.enabled && c.tray.autoHide
    ensures c.geli.enabled && c.geli.passwordCmd == "" && c.geli.keyFiles == map[]
    ensures c.defaultOptions.Keys == {"vfat", "ntfs", "ext2", "ext3", "ext4", "ufs", "zfs", "msdos"}
  {
    Config(
      true, false, false, "/media", "xdg-open",
      NotificationConfig(true, 1500, 5000, -1000, -1000, -1000, -1000, -1000, -1000),
      TrayConfig(false, true, "drive-removable-media"),
      [], map[], DefaultOptions,
      GeliConfig(true, "", 0, map[]))
  }

  /** An entry names a device by a non-empty label, UUID or device path equal to the device's. */
  predicate Matches(e: DeviceConfig, lbl: string, uuid: string, path: string) {
    || (e.idLabel != "" && e.idLabel == lbl)
    || (e.idUuid != "" && e.idUuid == uuid)
    || (e.devicePath != "" && e.devicePath == path)
  }

  /** The index of the first entry at or after `from` that matches. */
  function FirstMatchFrom(entries: seq<DeviceConfig>, from: nat, lbl: string, uuid: string, path: string): (r: Option<nat>)
    requires from <= |entries|
    ensures r.Some? ==> from <= r.value < |entries| && Matches(entries[r.value], lbl, uuid, path)
    ensures r.Some? ==> forall j :: from <= j < r.value ==> !Matches(entries[j], lbl, uuid, path)
    ensures r.None? ==> forall j :: from <= j < |entries| ==> !Matches(entries[j], lbl, uuid, path)
    decreases |entries| - from
  {
    if from == |entries| then None
    else if Matches(entries[from], lbl, uuid, path) then Some(from)
    else FirstMatchFrom(entries, from + 1, lbl, uuid, path)
  }

  /** GetDeviceConfig: the first entry, in list order, that matches the device, if any. */
  function GetDeviceConfig(c: Config, lbl: string, uuid: string, path: string): (r: Option<DeviceConfig>)
    ensures r.Some? ==> exists i :: (0 <= i < |c.devices| && c.devices[i] == r.value
      && Matches(r.value, lbl, uuid, path)
      && forall j :: 0 <= j < i ==> !Matches(c.devices[j], lbl, uuid, path))
    ensures r.None? <==> forall j :: 0 <= j < |c.devices| ==> !Matches(c.devices[j], lbl, uuid, path)
  {
    match FirstMatchFrom(c.devices, 0, lbl, uuid, path)
    case Some(i) => Some(c.devices[i])
    case None => None
  }

  /** An entry whose identifiers are all empty matches no device. */
  lemma EmptyEntryNeverMatches(e: DeviceConfig, lbl: string, uuid: string, path: string)
    requires e.idLabel == "" && e.idUuid == "" && e.devicePath == ""
    ensures !Matches(e, lbl, uuid, path)
  {
  }

  /** ShouldIgnoreDevice: the matched entry's `ignore`, false when nothing matches. */
  function ShouldIgnoreDevice(c: Config, lbl: string, uuid: string, path: string): (r: bool)
    ensures r <==> exists i :: (0 <= i < |c.devices| && c.devices[i].ignore
      && Matches(c.devices[i], lbl, uuid, path)
      && forall j :: 0 <= j < i ==> !Matches(c.devices[j], lbl, uuid, path))
  {
    var m := FirstMatchFrom(c.devices, 0, lbl, uuid, path);
    if m.Some? then c.devices[m.value].ignore
    else false
  }

  /**
   * ShouldAutomountDevice: the matched entry's explicit setting, otherwise
   * the global one (also when the first match leaves it unset).
   */
  function ShouldAutomountDevice(c: Config, lbl: string, uuid: string, path: string): (r: bool)
    ensures GetDeviceConfig(c, lbl, uuid, path).None? ==> r == c.automount
    ensures match GetDeviceConfig(c, lbl, uuid, path)
      case Some(e) => r == (if e.automount.Some? then e.automount.value else c.automount)
      case None => true
  {
    var e := GetDeviceConfig(c, lbl, uuid, path);
    if e.Some? && e.value.automount.Some? then e.value.automount.value
    else c.automount
  }

  /**
   * GetMountOptions: a matched entry's own options when it has any, else the
   * defaults for the filesystem type, else none. The entry's options are
   * never merged with the defaults.
   */
  function GetMountOptions(c: Config, fstype: string, lbl: string, uuid: string, path: string): (r: seq<string>)
    ensures var e := GetDeviceConfig(c, lbl, uuid, path);
      e.Some? && e.value.options != [] ==> r == e.value.options
    ensures var e := GetDeviceConfig(c, lbl, uuid, path);
      (e.None? || e.value.options == []) ==>
        r == (if fstype in c.defaultOptions then c.defaultOptions[fstype] else [])
  {
    var e := GetDeviceConfig(c, lbl, uuid, path);
    if e.Some? && |e.value.options| > 0 then e.value.options
    else if fstype in c.defaultOptions then c.defaultOptions[fstype]
    else []
  }

  /**
   * The classifier calls FAT "msdosfs", which the default table does not
   * list, so an unconfigured FAT partition is mounted with no options.
   */
  lemma DefaultFatHasNoOptions(lbl: string, uuid: string, path: string)
    ensures GetMountOptions(Default(), "msdosfs", lbl, uuid, path) == []
  {
    assert "msdosfs" !in Default().defaultOptions;
  }

  /** The cases the configuration tests exercise, on a list of two entries. */
  lemma LookupExamples()
    ensures var c := Default().(devices := [
        DeviceConfig("MY_USB", "", "", false, None, ["noexec"]),
        DeviceConfig("", "1234-5678", "", false, None, ["ro"])]);
      && GetDeviceConfig(c, "MY_USB", "", "") == Some(c.devices[0])
      && GetDeviceConfig(c, "", "1234-5678", "") == Some(c.devices[1])
      && GetDeviceConfig(c, "NONEXISTENT", "", "") == None
  {
    var c := Default().(devices := [
        DeviceConfig("MY_USB", "", "", false, None, ["noexec"]),
        DeviceConfig("", "1234-5678", "", false, None, ["ro"])]);
    assert Matches(c.devices[0], "MY_USB", "", "");
    assert !Matches(c.devices[0], "", "1234-5678", "");
    assert Matches(c.devices[1], "", "1234-5678", "");
  }

  /** An explicit per-device setting overrides the global automount, in both directions. */
  lemma AutomountExamples(global: bool)
    ensures var c := Default().(automount := global, devices := [
        DeviceConfig("NO_AUTO", "", "", false, Some(false), []),
        DeviceConfig("YES_AUTO", "", "", false, Some(true), [])]);
      && !ShouldAutomountDevice(c, "NO_AUTO", "", "")
      && ShouldAutomountDevice(c, "YES_AUTO", "", "")
      && ShouldAutomountDevice(c, "UNKNOWN", "", "") == global
  {
    var c := Default().(automount := global, devices := [
        DeviceConfig("NO_AUTO", "", "", false, Some(false), []),
        DeviceConfig("YES_AUTO", "", "", false, Some(true), [])]);
    assert Matches(c.devices[0], "NO_AUTO", "", "");
    assert !Matches(c.devices[0], "YES_AUTO", "", "");
    assert Matches(c.devices[1], "YES_AUTO", "", "");
    assert !Matches(c.devices[0], "UNKNOWN", "", "") && !Matches(c.devices[1], "UNKNOWN", "", "");
  }
}
