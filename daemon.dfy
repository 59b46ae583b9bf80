/**
 * The daemon of daemon/daemon.go: the table of devices it has mounted, the
 * set of device paths its poll loop knows, and the decisions it takes when
 * a device appears, disappears, is mounted, unmounted or unlocked. Tool
 * outcomes come from a World; what the daemon does outside itself is
 * appended to `effects`.
 */
module AutomountDaemon {
  import opened Text
  import opened Wrappers
  import opened DeviceRecord
  import opened Config
  import opened Commands

  // ---------------------------------------------------------------------
  // Event hooks

  /** The placeholders of an event hook, in the order they are replaced. */
  function HookCommand(template: string, d: Device): string {
    var c1 := ReplaceAll(template, "{device}", d.path);
    var c2 := ReplaceAll(c1, "{label}", d.volumeLabel);
    var c3 := ReplaceAll(c2, "{uuid}", d.uuid);
    ReplaceAll(c3, "{mount_point}", d.mountPoint)
  }

  predicate NoBrace(s: string) {
    forall i :: 0 <= i < |s| ==> s[i] != '{'
  }

  /** Text without '{' holds none of the placeholders. */
  lemma NoBraceNoPlaceholder(s: string, p: string)
    requires NoBrace(s) && |p| > 0 && p[0] == '{'
    ensures !Contains(s, p)
  {
  }

  /** A hook without placeholders runs as written. */
  lemma HookWithoutPlaceholders(template: string, d: Device)
    requires NoBrace(template)
    ensures HookCommand(template, d) == template
  {
    NoBraceNoPlaceholder(template, "{device}");
    ReplaceAllAbsent(template, "{device}", d.path);
    NoBraceNoPlaceholder(template, "{label}");
    ReplaceAllAbsent(template, "{label}", d.volumeLabel);
    NoBraceNoPlaceholder(template, "{uuid}");
    ReplaceAllAbsent(template, "{uuid}", d.uuid);
    NoBraceNoPlaceholder(template, "{mount_point}");
    ReplaceAllAbsent(template, "{mount_point}", d.mountPoint);
  }

  /**
   * Replacement is textual and in order: a device path that itself reads
   * "{label}" is replaced again by the label.
   */
  lemma HookRewritesInsertedText(d: Device)
    requires d.path == "{label}" && NoBrace(d.volumeLabel)
    ensures HookCommand("{device}", d) == d.volumeLabel
  {
    ReplaceAllWhole("{device}", d.path);
    ReplaceAllWhole("{label}", d.volumeLabel);
    NoBraceNoPlaceholder(d.volumeLabel, "{uuid}");
    ReplaceAllAbsent(d.volumeLabel, "{uuid}", d.uuid);
    NoBraceNoPlaceholder(d.volumeLabel, "{mount_point}");
    ReplaceAllAbsent(d.volumeLabel, "{mount_point}", d.mountPoint);
  }

  // ---------------------------------------------------------------------
  // GELI

  /**
   * The `geli attach` run to unlock a device: with the key file registered
   * for its UUID, else with the password obtained for it on standard input;
   * nothing when GELI support is off or no password can be obtained.
   */
  function GeliCommand(c: Config, dev: Device, world: World): (r: Option<Effect>)
    ensures r.Some? ==> c.geli.enabled && r.value.Exec? && r.value.program == "geli"
    ensures r.Some? ==> |r.value.args| >= 2 && r.value.args[0] == "attach" && r.value.args[|r.value.args| - 1] == dev.path
    ensures r.Some? && dev.uuid in c.geli.keyFiles ==>
      r.value.args == ["attach", "-k", c.geli.keyFiles[dev.uuid], dev.path] && r.value.stdin == ""
    ensures r.Some? && dev.uuid !in c.geli.keyFiles ==>
      dev.path in world.passwords && r.value.args == ["attach", dev.path] && r.value.stdin == world.passwords[dev.path] + "\n"
    ensures r.None? <==> !c.geli.enabled || (dev.uuid !in c.geli.keyFiles && dev.path !in world.passwords)
  {
    if !c.geli.enabled then None
    else if dev.uuid in c.geli.keyFiles then Some(Exec("geli", ["attach", "-k", c.geli.keyFiles[dev.uuid], dev.path], ""))
    else if dev.path in world.passwords then Some(Exec("geli", ["attach", dev.path], world.passwords[dev.path] + "\n"))
    else None
  }

  predicate UnlockSucceeds(c: Config, dev: Device, world: World) {
    GeliCommand(c, dev, world).Some? && dev.path !in world.geliFails
  }

  function OptionList<T>(o: Option<T>): seq<T> {
    if o.Some? then [o.value] else []
  }

  /** A notification is sent only when notifications are on and its display time is positive. */
  function NotifyIf(c: Config, time: int, summary: string, body: string): seq<Effect> {
    if c.notifications.enabled && time > 0 then [Notify(summary, body, time)] else []
  }

  /** The device paths of a scan, as a set. */
  function PathSet(ds: seq<Device>): set<string>
    decreases |ds|
  {
    if ds == [] then {} else PathSet(ds[..|ds| - 1]) + {ds[|ds| - 1].path}
  }

  lemma {:induction false} PathSetMembers(ds: seq<Device>)
    ensures forall p :: p in PathSet(ds) <==> exists d :: d in ds && d.path == p
    decreases |ds|
  {
    if ds != [] {
      var init := ds[..|ds| - 1];
      PathSetMembers(init);
      assert ds == init + [ds[|ds| - 1]];
    }
  }

  /**
   * The paths a poll tick reports as added, in scan order: each path of the
   * scan that was not known and has not appeared earlier in the scan.
   */
  function NewPaths(known: set<string>, ds: seq<Device>): seq<string>
    decreases |ds|
  {
    if ds == [] then []
    else
      var init := ds[..|ds| - 1];
      var p := ds[|ds| - 1].path;
      NewPaths(known, init) + if p !in known + PathSet(init) then [p] else []
  }

  /**
   * onDeviceAdded runs exactly for the paths of the scan that were not
   * known, once each.
   */
  lemma {:induction false} NewPathsOncePerPath(known: set<string>, ds: seq<Device>)
    ensures forall p :: p in NewPaths(known, ds) <==> p in PathSet(ds) && p !in known
    ensures forall i, j :: 0 <= i < j < |NewPaths(known, ds)| ==> NewPaths(known, ds)[i] != NewPaths(known, ds)[j]
    decreases |ds|
  {
    if ds != [] {
      NewPathsOncePerPath(known, ds[..|ds| - 1]);
    }
  }

  /** Whether mountDevice succeeds: the device is not mounted, unlocking (when needed) works, and so do MkdirAll and mount(8). */
  predicate MountSucceeds(c: Config, dev: Device, world: World)
    requires HasDisplayName(dev)
  {
    && !dev.isMounted
    && (dev.isEncrypted && !dev.isUnlocked ==> UnlockSucceeds(c, dev, world))
    && GetMountDirectory(dev, c.mountBase) !in world.mkdirFails
    && dev.path !in world.mountFails
  }

  /** The mount(8) run for a device on a mount point, with the options the configuration chooses for it. */
  function MountCommand(c: Config, d: Device, mountPoint: string): Effect {
    Exec("mount", MountArgs(GetMountOptions(c, d.fsType, d.volumeLabel, d.uuid, d.path), d.fsType, d.path, mountPoint), "")
  }

  /** The record of a device after mountDevice succeeds on it. */
  function MountedAs(c: Config, dev: Device): Device
    requires HasDisplayName(dev)
  {
    dev.(isUnlocked := dev.isUnlocked || dev.isEncrypted,
         mountPoint := GetMountDirectory(dev, c.mountBase), isMounted := true)
  }

  /** The hook run for an event, when the configuration has one. */
  function EventHook(c: Config, event: string, d: Device): seq<Effect> {
    if event in c.eventHooks then [Hook(HookCommand(c.eventHooks[event], d))] else []
  }

  /** Appending in steps is appending the steps joined. */
  lemma AppendAssoc4<T>(s: seq<T>, a: seq<T>, b: seq<T>, c: seq<T>, d: seq<T>)
    ensures s + a + b + c + d == s + (a + (b + c + d))
    ensures s + a + b + c == s + (a + b + c)
  {
  }

  lemma AppendAssoc<T>(s: seq<T>, a: seq<T>, b: seq<T>)
    ensures s + a + b == s + (a + b)
  {
  }

  /** Every entry of a table has a display name. */
  ghost predicate Named(m: map<string, Device>) {
    forall p :: p in m ==> HasDisplayName(m[p])
  }

  /** An encrypted device that is still locked must be unlocked before it is mounted. */
  predicate NeedsUnlock(dev: Device) {
    dev.isEncrypted && !dev.isUnlocked
  }

  /** What unlockDevice does outside the daemon: the geli run, then the notification when it succeeds. */
  function UnlockEffects(c: Config, dev: Device, world: World): seq<Effect>
    requires HasDisplayName(dev)
  {
    OptionList(GeliCommand(c, dev, world))
      + if UnlockSucceeds(c, dev, world) then NotifyIf(c, c.notifications.deviceUnlocked, "Device Unlocked", GetDisplayName(dev) + " unlocked") else []
  }

  /** What mountDevice does after a successful mount: the notification, the `device_mounted` hook, the file manager. */
  function AnnounceEffects(c: Config, d: Device): seq<Effect>
    requires HasDisplayName(d)
  {
    NotifyIf(c, c.notifications.deviceMounted, "Device Mounted", GetDisplayName(d) + " mounted at " + d.mountPoint)
      + EventHook(c, "device_mounted", d)
      + (if c.fileManager != "" then [Launch(c.fileManager, d.mountPoint)] else [])
  }

  /** What mountDevice does once the device is unlocked: MkdirAll; mount(8) when that works; the announcement when the mount works. */
  function MountUnlockedEffects(c: Config, d: Device, mountPoint: string, world: World): seq<Effect>
    requires HasDisplayName(d)
  {
    var announce := if d.path in world.mountFails then [] else AnnounceEffects(c, d.(mountPoint := mountPoint, isMounted := true));
    [MakeDirs(mountPoint)] + (if mountPoint in world.mkdirFails then [] else [MountCommand(c, d, mountPoint)] + announce)
  }

  /**
   * What mountDevice does outside the daemon: nothing for a mounted device;
   * the unlock first for a locked one, stopping there when it fails; then
   * the mkdir, mount and announcement steps.
   */
  function MountEffects(c: Config, dev: Device, world: World): seq<Effect>
    requires HasDisplayName(dev)
  {
    if dev.isMounted then []
    else if !NeedsUnlock(dev) then MountUnlockedEffects(c, dev, GetMountDirectory(dev, c.mountBase), world)
    else if !UnlockSucceeds(c, dev, world) then UnlockEffects(c, dev, world)
    else UnlockEffects(c, dev, world) + MountUnlockedEffects(c, dev.(isUnlocked := true), GetMountDirectory(dev, c.mountBase), world)
  }

  /** The umount(8) run for a mount point. */
  function UnmountCommand(mountPoint: string): Effect {
    Exec("umount", UnmountArgs(false, mountPoint), "")
  }

  /**
   * What unmountDevice does outside the daemon: nothing for an unmounted
   * device; otherwise umount(8), and only when that works the removal of
   * the mount directory, the notification and the `device_unmounted` hook
   * on the cleared record.
   */
  function UnmountEffects(c: Config, dev: Device, world: World): seq<Effect>
    requires HasDisplayName(dev)
  {
    if !dev.isMounted then []
    else
      var cleared := [RemoveDir(dev.mountPoint)]
        + NotifyIf(c, c.notifications.deviceUnmounted, "Device Unmounted", GetDisplayName(dev) + " unmounted")
        + EventHook(c, "device_unmounted", dev.(mountPoint := "", isMounted := false));
      [UnmountCommand(dev.mountPoint)] + (if dev.mountPoint in world.umountFails then [] else cleared)
  }

  /** What the automount step of onDeviceAdded does: mountDevice, then "Mount Failed" when it fails. */
  function AutomountEffects(c: Config, dev: Device, world: World): seq<Effect>
    requires HasDisplayName(dev)
  {
    MountEffects(c, dev, world)
      + if MountSucceeds(c, dev, world) then [] else NotifyIf(c, c.notifications.jobFailed, "Mount Failed", "Failed to mount " + GetDisplayName(dev))
  }

  /** What onDeviceAdded does outside the daemon. */
  function AddedEffects(c: Config, dev: Device, world: World): seq<Effect>
    requires HasDisplayName(dev)
  {
    if ShouldIgnoreDevice(c, dev.volumeLabel, dev.uuid, dev.path) then []
    else
      NotifyIf(c, c.notifications.deviceAdded, "Device Added", GetDisplayName(dev) + " connected")
        + EventHook(c, "device_added", dev)
        + if dev.isPartition && ShouldAutomountDevice(c, dev.volumeLabel, dev.uuid, dev.path) then AutomountEffects(c, dev, world) else []
  }

  /** The name onDeviceRemoved announces: the display name of the mounted record, else the bare path. */
  function RemovedName(m: map<string, Device>, path: string): string
    requires path in m ==> HasDisplayName(m[path])
  {
    if path in m then GetDisplayName(m[path]) else path
  }

  /** What onDeviceRemoved does outside the daemon: unmountDevice on the mounted record, if any, then the notification. */
  function RemovedEffects(c: Config, m: map<string, Device>, path: string, world: World): seq<Effect>
    requires path in m ==> HasDisplayName(m[path])
  {
    (if path in m then UnmountEffects(c, m[path], world) else [])
      + NotifyIf(c, c.notifications.deviceRemoved, "Device Removed", RemovedName(m, path) + " disconnected")
  }

  /**
   * mountDevice runs mount(8) exactly when the device is not mounted, any
   * needed unlock succeeds and the mount directory can be made, and then
   * with the configured arguments on that directory; it makes the
   * directory whenever the unlock does not stop it.
   */
  lemma MountEffectsRunsMount(c: Config, dev: Device, world: World)
    requires HasDisplayName(dev)
    ensures MountCommand(c, dev, GetMountDirectory(dev, c.mountBase)) in MountEffects(c, dev, world) <==>
      !dev.isMounted && (NeedsUnlock(dev) ==> UnlockSucceeds(c, dev, world)) && GetMountDirectory(dev, c.mountBase) !in world.mkdirFails
    ensures forall e :: e in MountEffects(c, dev, world) && e.Exec? && e.program == "mount" ==>
      e == MountCommand(c, dev, GetMountDirectory(dev, c.mountBase))
    ensures !dev.isMounted && (NeedsUnlock(dev) ==> UnlockSucceeds(c, dev, world)) ==>
      MakeDirs(GetMountDirectory(dev, c.mountBase)) in MountEffects(c, dev, world)
  {
    var dir := GetMountDirectory(dev, c.mountBase);
    UnlockRunsNoMount(c, dev, world);
    if dev.isMounted {
    } else if !NeedsUnlock(dev) {
      MountUnlockedRuns(c, dev, dir, world);
    } else if !UnlockSucceeds(c, dev, world) {
    } else {
      var u := dev.(isUnlocked := true);
      assert MountCommand(c, u, dir) == MountCommand(c, dev, dir);
      assert HasDisplayName(u) && GetMountDirectory(u, c.mountBase) == dir;
      MountUnlockedRuns(c, u, dir, world);
    }
  }

  /** The unlock step runs only geli and makes no directory. */
  lemma UnlockRunsNoMount(c: Config, dev: Device, world: World)
    requires HasDisplayName(dev)
    ensures forall e :: e in UnlockEffects(c, dev, world) ==> (e.Exec? ==> e.program == "geli") && !e.MakeDirs?
  {
  }

  /** After the unlock, the directory is always made, and mount(8) runs exactly when that works. */
  lemma MountUnlockedRuns(c: Config, d: Device, mountPoint: string, world: World)
    requires HasDisplayName(d)
    ensures MakeDirs(mountPoint) in MountUnlockedEffects(c, d, mountPoint, world)
    ensures MountCommand(c, d, mountPoint) in MountUnlockedEffects(c, d, mountPoint, world) <==> mountPoint !in world.mkdirFails
    ensures forall e :: e in MountUnlockedEffects(c, d, mountPoint, world) && e.Exec? ==> e == MountCommand(c, d, mountPoint)
  {
    var announce := if d.path in world.mountFails then [] else AnnounceEffects(c, d.(mountPoint := mountPoint, isMounted := true));
    assert forall e :: e in announce ==> !e.Exec?;
  }

  /** unmountDevice removes a directory only after umount(8) succeeds, and then only the device's own mount point. */
  lemma UnmountRemovesDirOnlyAfterSuccess(c: Config, dev: Device, world: World)
    requires HasDisplayName(dev)
    ensures forall x :: RemoveDir(x) in UnmountEffects(c, dev, world) <==>
      dev.isMounted && dev.mountPoint !in world.umountFails && x == dev.mountPoint
    ensures dev.isMounted ==> UnmountEffects(c, dev, world)[0] == UnmountCommand(dev.mountPoint)
  {
  }

  /**
   * onDeviceAdded runs mount(8) only for a device that is not ignored and
   * is a partition the policy automounts; for such a device that is not
   * mounted, whose unlock (if needed) succeeds and whose directory can be
   * made, it does run it.
   */
  lemma AddedMountsOnlyAutomountPartitions(c: Config, dev: Device, world: World)
    requires HasDisplayName(dev)
    ensures forall e :: e in AddedEffects(c, dev, world) && e.Exec? && e.program == "mount" ==>
      !ShouldIgnoreDevice(c, dev.volumeLabel, dev.uuid, dev.path)
      && dev.isPartition && ShouldAutomountDevice(c, dev.volumeLabel, dev.uuid, dev.path)
    ensures (&& !ShouldIgnoreDevice(c, dev.volumeLabel, dev.uuid, dev.path)
             && dev.isPartition && ShouldAutomountDevice(c, dev.volumeLabel, dev.uuid, dev.path)
             && !dev.isMounted && (NeedsUnlock(dev) ==> UnlockSucceeds(c, dev, world))
             && GetMountDirectory(dev, c.mountBase) !in world.mkdirFails) ==>
      MountCommand(c, dev, GetMountDirectory(dev, c.mountBase)) in AddedEffects(c, dev, world)
  {
    MountEffectsRunsMount(c, dev, world);
  }

  /** Whether onDeviceAdded mounts the device: not ignored, a partition the policy automounts, and the mount succeeds. */
  predicate MountsOnArrival(c: Config, dev: Device, world: World)
    requires HasDisplayName(dev)
  {
    && !ShouldIgnoreDevice(c, dev.volumeLabel, dev.uuid, dev.path)
    && dev.isPartition && ShouldAutomountDevice(c, dev.volumeLabel, dev.uuid, dev.path)
    && MountSucceeds(c, dev, world)
  }

  /** The `mounted` table after onDeviceAdded. */
  function AfterAdded(c: Config, m: map<string, Device>, dev: Device, world: World): map<string, Device>
    requires HasDisplayName(dev)
  {
    if MountsOnArrival(c, dev, world) then m[dev.path := MountedAs(c, dev)] else m
  }

  /** The `mounted` table after the first loop of a poll tick: onDeviceAdded for each path not seen before, in scan order. */
  function AdmittedTable(c: Config, known: set<string>, m: map<string, Device>, ds: seq<Device>, world: World): (r: map<string, Device>)
    requires forall d :: d in ds ==> HasDisplayName(d)
    ensures Named(m) ==> Named(r)
    decreases |ds|
  {
    if ds == [] then m
    else
      var init := ds[..|ds| - 1];
      var d := ds[|ds| - 1];
      var m' := AdmittedTable(c, known, m, init, world);
      if d.path !in known + PathSet(init) then AfterAdded(c, m', d, world) else m'
  }

  /**
   * The `mounted` table after onDeviceRemoved has run for every path of
   * `gone`: an entry goes exactly when its path is gone and umount(8)
   * succeeds on its mount point. Each run touches only its own path, so the
   * order of the runs does not matter.
   */
  function AfterRemoved(m: map<string, Device>, gone: set<string>, world: World): map<string, Device> {
    map p | p in m && !(p in gone && m[p].mountPoint !in world.umountFails) :: m[p]
  }

  /** One onDeviceRemoved run extends the set of paths already handled by its own path. */
  lemma RemovedStep(m: map<string, Device>, before: map<string, Device>, done: set<string>, p: string, world: World)
    requires before == AfterRemoved(m, done, world) && p !in done
    ensures p !in m ==> AfterRemoved(m, done + {p}, world) == before
    ensures p in before <==> p in m
    ensures p in m ==> before[p] == m[p]
    ensures p in m && m[p].mountPoint in world.umountFails ==> AfterRemoved(m, done + {p}, world) == before
    ensures p in m && m[p].mountPoint !in world.umountFails ==> AfterRemoved(m, done + {p}, world) == before - {p}
  {
  }

  /** The `mounted` table after a poll tick over a successful scan. */
  function PollTable(c: Config, known: set<string>, m: map<string, Device>, ds: seq<Device>, world: World): map<string, Device>
    requires forall d :: d in ds ==> HasDisplayName(d)
  {
    AfterRemoved(AdmittedTable(c, known, m, ds, world), known - PathSet(ds), world)
  }

  /** The device onDeviceAdded runs on for each newly seen path: the first scanned device with that path, in scan order. */
  function Arrivals(known: set<string>, ds: seq<Device>): (r: seq<Device>)
    ensures forall d :: d in r ==> d in ds
    decreases |ds|
  {
    if ds == [] then []
    else
      var init := ds[..|ds| - 1];
      var d := ds[|ds| - 1];
      Arrivals(known, init) + if d.path !in known + PathSet(init) then [d] else []
  }

  /** The effects of onDeviceAdded on each device, one after the other. */
  function EachAdded(c: Config, ds: seq<Device>, world: World): seq<Effect>
    requires forall d :: d in ds ==> HasDisplayName(d)
    decreases |ds|
  {
    if ds == [] then [] else EachAdded(c, ds[..|ds| - 1], world) + AddedEffects(c, ds[|ds| - 1], world)
  }

  /** What the first loop of a poll tick does outside the daemon. */
  function AdmittedEffects(c: Config, known: set<string>, ds: seq<Device>, world: World): seq<Effect>
    requires forall d :: d in ds ==> HasDisplayName(d)
  {
    EachAdded(c, Arrivals(known, ds), world)
  }

  /**
   * onDeviceAdded runs once for each path not known before, in scan order,
   * on the first scanned device with that path: the devices it runs on
   * carry exactly the new paths.
   */
  lemma {:induction false} ArrivalsCarryNewPaths(known: set<string>, ds: seq<Device>)
    ensures |Arrivals(known, ds)| == |NewPaths(known, ds)|
    ensures forall i :: 0 <= i < |Arrivals(known, ds)| ==> Arrivals(known, ds)[i].path == NewPaths(known, ds)[i]
    decreases |ds|
  {
    if ds != [] {
      ArrivalsCarryNewPaths(known, ds[..|ds| - 1]);
    }
  }

  predicate Distinct(xs: seq<string>) {
    forall i, j :: 0 <= i < j < |xs| ==> xs[i] != xs[j]
  }

  function Elems(xs: seq<string>): set<string> {
    set p | p in xs
  }

  /** onDeviceRemoved's effects depend only on the table's entry for the path. */
  lemma RemovedEffectsOfEntry(c: Config, m: map<string, Device>, m': map<string, Device>, path: string, world: World)
    requires path in m ==> HasDisplayName(m[path])
    requires path in m <==> path in m'
    requires path in m ==> m[path] == m'[path]
    ensures RemovedEffects(c, m, path, world) == RemovedEffects(c, m', path, world)
  {
  }

  /** What onDeviceRemoved does for each path of `order`, one after the other, against the table it starts from. */
  function EachRemoved(c: Config, m: map<string, Device>, order: seq<string>, world: World): seq<Effect>
    requires Named(m)
    decreases |order|
  {
    if order == [] then []
    else EachRemoved(c, m, order[..|order| - 1], world) + RemovedEffects(c, m, order[|order| - 1], world)
  }

  /**
   * The removal loop runs umount(8) on the mount point of every vanished
   * path that was mounted, and on no other mount point.
   */
  lemma {:induction false} EachRemovedUnmounts(c: Config, m: map<string, Device>, order: seq<string>, world: World)
    requires Named(m)
    ensures forall k :: 0 <= k < |order| && order[k] in m && m[order[k]].isMounted ==>
      UnmountCommand(m[order[k]].mountPoint) in EachRemoved(c, m, order, world)
    ensures forall e :: e in EachRemoved(c, m, order, world) && e.Exec? && e.program == "umount" ==>
      exists p :: p in order && p in m && e == UnmountCommand(m[p].mountPoint)
    decreases |order|
  {
    if order != [] {
      var init := order[..|order| - 1];
      var p := order[|order| - 1];
      EachRemovedUnmounts(c, m, init, world);
      forall k | 0 <= k < |order| && order[k] in m && m[order[k]].isMounted
        ensures UnmountCommand(m[order[k]].mountPoint) in EachRemoved(c, m, order, world)
      {
        if k < |init| {
          assert init[k] == order[k];
        }
      }
      forall e | e in EachRemoved(c, m, order, world) && e.Exec? && e.program == "umount"
        ensures exists q :: q in order && q in m && e == UnmountCommand(m[q].mountPoint)
      {
        if e in EachRemoved(c, m, init, world) {
          var q :| q in init && q in m && e == UnmountCommand(m[q].mountPoint);
          assert q in order;
        } else {
          assert e in RemovedEffects(c, m, p, world);
          assert p in order;
        }
      }
    }
  }

  /** The removal loop announces every vanished path, under its name, when removal notifications are on. */
  lemma {:induction false} EachRemovedAnnounces(c: Config, m: map<string, Device>, order: seq<string>, world: World)
    requires Named(m) && c.notifications.enabled && c.notifications.deviceRemoved > 0
    ensures forall k :: 0 <= k < |order| ==>
      Notify("Device Removed", RemovedName(m, order[k]) + " disconnected", c.notifications.deviceRemoved) in EachRemoved(c, m, order, world)
    decreases |order|
  {
    if order != [] {
      var init := order[..|order| - 1];
      EachRemovedAnnounces(c, m, init, world);
      forall k | 0 <= k < |order|
        ensures Notify("Device Removed", RemovedName(m, order[k]) + " disconnected", c.notifications.deviceRemoved) in EachRemoved(c, m, order, world)
      {
        if k < |init| {
          assert init[k] == order[k];
        }
      }
    }
  }

  /** What MountAll's loop does outside the daemon: mountDevice's effects for each unmounted partition, in scan order. */
  function MountAllEffects(c: Config, ds: seq<Device>, world: World): seq<Effect>
    requires forall d :: d in ds ==> HasDisplayName(d)
    decreases |ds|
  {
    if ds == [] then []
    else
      var d := ds[|ds| - 1];
      MountAllEffects(c, ds[..|ds| - 1], world) + if d.isPartition && !d.isMounted then MountEffects(c, d, world) else []
  }

  /**
   * MountAll attempts every unmounted partition of the scan, whatever
   * happened to the others: it makes the mount directory of each one whose
   * unlock (if needed) succeeds, and runs mount(8) for each one whose
   * directory can also be made.
   */
  lemma {:induction false} MountAllAttemptsEach(c: Config, ds: seq<Device>, world: World)
    requires forall d :: d in ds ==> HasDisplayName(d)
    ensures forall d :: d in ds && d.isPartition && !d.isMounted && (NeedsUnlock(d) ==> UnlockSucceeds(c, d, world)) ==>
      MakeDirs(GetMountDirectory(d, c.mountBase)) in MountAllEffects(c, ds, world)
    ensures forall d :: (&& d in ds && d.isPartition && !d.isMounted && (NeedsUnlock(d) ==> UnlockSucceeds(c, d, world))
                         && GetMountDirectory(d, c.mountBase) !in world.mkdirFails) ==>
      MountCommand(c, d, GetMountDirectory(d, c.mountBase)) in MountAllEffects(c, ds, world)
    decreases |ds|
  {
    if ds != [] {
      var init := ds[..|ds| - 1];
      var last := ds[|ds| - 1];
      MountAllAttemptsEach(c, init, world);
      MountEffectsRunsMount(c, last, world);
      assert ds == init + [last];
    }
  }

  /** Every scanned path is in the scan's path set. */
  lemma {:induction false} PathSetHas(ds: seq<Device>, i: int)
    requires 0 <= i < |ds|
    ensures ds[i].path in PathSet(ds)
    decreases |ds|
  {
    if i < |ds| - 1 {
      PathSetHas(ds[..|ds| - 1], i);
    }
  }

  /** The first loop of a poll tick keeps every entry and adds entries only for newly seen paths. */
  lemma {:induction false} AdmittedTableKeys(c: Config, known: set<string>, m: map<string, Device>, ds: seq<Device>, world: World)
    requires forall d :: d in ds ==> HasDisplayName(d)
    ensures forall p :: p in m ==> p in AdmittedTable(c, known, m, ds, world)
    ensures forall p :: p in AdmittedTable(c, known, m, ds, world) && p !in m ==> p in NewPaths(known, ds)
    decreases |ds|
  {
    if ds != [] {
      AdmittedTableKeys(c, known, m, ds[..|ds| - 1], world);
    }
  }

  /** The first loop of a poll tick changes no entry of a path it does not see as new. */
  lemma {:induction false} AdmittedTableUnchanged(c: Config, known: set<string>, m: map<string, Device>, ds: seq<Device>, world: World)
    requires forall d :: d in ds ==> HasDisplayName(d)
    ensures forall p :: p in m && p !in NewPaths(known, ds) ==>
      p in AdmittedTable(c, known, m, ds, world) && AdmittedTable(c, known, m, ds, world)[p] == m[p]
    decreases |ds|
  {
    if ds != [] {
      AdmittedTableUnchanged(c, known, m, ds[..|ds| - 1], world);
    }
  }

  /**
   * The first loop of a poll tick leaves each newly seen device that the
   * policy automounts, and whose mount succeeds, mounted on its mount
   * directory: later devices of the scan never replace its entry.
   */
  lemma {:induction false} AdmittedTableArrivals(c: Config, known: set<string>, m: map<string, Device>, ds: seq<Device>, world: World)
    requires forall d :: d in ds ==> HasDisplayName(d)
    ensures forall i :: 0 <= i < |ds| && ds[i].path !in known + PathSet(ds[..i]) && MountsOnArrival(c, ds[i], world) ==>
      ds[i].path in AdmittedTable(c, known, m, ds, world) && AdmittedTable(c, known, m, ds, world)[ds[i].path] == MountedAs(c, ds[i])
    decreases |ds|
  {
    if ds != [] {
      var init := ds[..|ds| - 1];
      var r := AdmittedTable(c, known, m, ds, world);
      AdmittedTableArrivals(c, known, m, init, world);
      forall i | 0 <= i < |ds| && ds[i].path !in known + PathSet(ds[..i]) && MountsOnArrival(c, ds[i], world)
        ensures ds[i].path in r && r[ds[i].path] == MountedAs(c, ds[i])
      {
        if i < |init| {
          assert init[i] == ds[i] && init[..i] == ds[..i];
          PathSetHas(init, i);
        } else {
          assert ds[..i] == init;
        }
      }
    }
  }

  /**
   * A poll tick over a successful scan unmounts and drops every mounted
   * device the scan no longer shows (unless umount(8) fails on it), mounts
   * every newly seen device the policy automounts (when the mount
   * succeeds), and leaves every other entry as it was.
   */
  lemma PollTableEntries(c: Config, known: set<string>, m: map<string, Device>, ds: seq<Device>, world: World)
    requires forall d :: d in ds ==> HasDisplayName(d)
    ensures forall p :: p in m && p in known && p !in PathSet(ds) && m[p].mountPoint !in world.umountFails ==>
      p !in PollTable(c, known, m, ds, world)
    ensures forall p :: p in m && p in known && p !in PathSet(ds) && m[p].mountPoint in world.umountFails ==>
      p in PollTable(c, known, m, ds, world) && PollTable(c, known, m, ds, world)[p] == m[p]
    ensures forall i :: 0 <= i < |ds| && ds[i].path !in known + PathSet(ds[..i]) && MountsOnArrival(c, ds[i], world) ==>
      ds[i].path in PollTable(c, known, m, ds, world) && PollTable(c, known, m, ds, world)[ds[i].path] == MountedAs(c, ds[i])
    ensures forall p :: p in m && p !in known - PathSet(ds) && p !in NewPaths(known, ds) ==>
      p in PollTable(c, known, m, ds, world) && PollTable(c, known, m, ds, world)[p] == m[p]
    ensures forall p :: p in PollTable(c, known, m, ds, world) && p !in m ==> p in NewPaths(known, ds)
  {
    AdmittedTableKeys(c, known, m, ds, world);
    AdmittedTableUnchanged(c, known, m, ds, world);
    AdmittedTableArrivals(c, known, m, ds, world);
    NewPathsOncePerPath(known, ds);
    forall i | 0 <= i < |ds|
      ensures ds[i].path in PathSet(ds)
    {
      PathSetHas(ds, i);
    }
  }

  /** The `mounted` table after MountAll's loop: mountDevice on each unmounted partition, in scan order. */
  function MountAllTable(c: Config, m: map<string, Device>, ds: seq<Device>, world: World): map<string, Device>
    requires forall d :: d in ds ==> HasDisplayName(d)
    decreases |ds|
  {
    if ds == [] then m
    else
      var d := ds[|ds| - 1];
      var m' := MountAllTable(c, m, ds[..|ds| - 1], world);
      if d.isPartition && MountSucceeds(c, d, world) then m'[d.path := MountedAs(c, d)] else m'
  }

  /**
   * MountAll keeps every entry, leaves each partition of the scan whose
   * mount succeeds in the table, adds only such partitions, and changes no
   * entry for a path the scan does not show.
   */
  lemma {:induction false} MountAllTableEntries(c: Config, m: map<string, Device>, ds: seq<Device>, world: World)
    requires forall d :: d in ds ==> HasDisplayName(d)
    ensures m.Keys <= MountAllTable(c, m, ds, world).Keys
    ensures forall d :: d in ds && d.isPartition && MountSucceeds(c, d, world) ==> d.path in MountAllTable(c, m, ds, world)
    ensures forall p :: p in MountAllTable(c, m, ds, world) && p !in m ==>
      exists d :: d in ds && d.path == p && d.isPartition && MountSucceeds(c, d, world) && MountAllTable(c, m, ds, world)[p] == MountedAs(c, d)
    ensures forall p :: p in m && p !in PathSet(ds) ==> MountAllTable(c, m, ds, world)[p] == m[p]
    decreases |ds|
  {
    if ds != [] {
      var init := ds[..|ds| - 1];
      var d := ds[|ds| - 1];
      var r := MountAllTable(c, m, ds, world);
      MountAllTableEntries(c, m, init, world);
      assert ds == init + [d];
      forall p | p in r && p !in m
        ensures exists e :: e in ds && e.path == p && e.isPartition && MountSucceeds(c, e, world) && r[p] == MountedAs(c, e)
      {
        if d.isPartition && MountSucceeds(c, d, world) && p == d.path {
          assert d in ds;
        } else {
          var e :| e in init && e.path == p && e.isPartition && MountSucceeds(c, e, world) && MountAllTable(c, m, init, world)[p] == MountedAs(c, e);
          assert e in ds;
        }
      }
    }
  }

  // ---------------------------------------------------------------------
  // The daemon

  class Daemon {
    const config: Config
    var mounted: map<string, Device>
    var knownDevices: set<string>
    var effects: seq<Effect>

    /** Every entry of `mounted` is filed under its own path and marked mounted. */
    ghost predicate Valid()
      reads this
    {
      forall p :: p in mounted ==> mounted[p].path == p && mounted[p].isMounted && HasDisplayName(mounted[p])
    }

    constructor(cfg: Config)
      ensures config == cfg && mounted == map[] && knownDevices == {} && effects == [] && Valid()
    {
      config := cfg;
      mounted := map[];
      knownDevices := {};
      effects := [];
    }

    method SendNotification(time: int, summary: string, body: string)
      modifies this
      ensures effects == old(effects) + NotifyIf(config, time, summary, body)
      ensures mounted == old(mounted) && knownDevices == old(knownDevices)
    {
      if config.notifications.enabled && time > 0 {
        effects := effects + [Notify(summary, body, time)];
      }
    }

    /** executeEventHook: the configured hook for the event, its placeholders filled from the device. */
    method ExecuteEventHook(event: string, dev: Device)
      modifies this
      ensures event in config.eventHooks ==> effects == old(effects) + [Hook(HookCommand(config.eventHooks[event], dev))]
      ensures event !in config.eventHooks ==> effects == old(effects)
      ensures effects == old(effects) + EventHook(config, event, dev)
      ensures mounted == old(mounted) && knownDevices == old(knownDevices)
    {
      if event in config.eventHooks {
        var cmd := ReplaceAll(config.eventHooks[event], "{device}", dev.path);
        cmd := ReplaceAll(cmd, "{label}", dev.volumeLabel);
        cmd := ReplaceAll(cmd, "{uuid}", dev.uuid);
        cmd := ReplaceAll(cmd, "{mount_point}", dev.mountPoint);
        effects := effects + [Hook(cmd)];
      }
    }

    /**
     * unlockDevice: fails at once when GELI support is off; otherwise runs
     * `geli attach` and marks the device unlocked only when it succeeds.
     */
    method UnlockDevice(dev: Device, world: World) returns (dev': Device, ok: bool)
      requires HasDisplayName(dev)
      modifies this
      ensures ok <==> UnlockSucceeds(config, dev, world)
      ensures dev' == if ok then dev.(isUnlocked := true) else dev
      ensures effects == old(effects) + UnlockEffects(config, dev, world)
      ensures mounted == old(mounted) && knownDevices == old(knownDevices)
    {
      var cmd := GeliCommand(config, dev, world);
      if cmd.None? {
        assert UnlockEffects(config, dev, world) == [];
        return dev, false;
      }
      effects := effects + [cmd.value];
      if dev.path in world.geliFails {
        assert UnlockEffects(config, dev, world) == [cmd.value];
        return dev, false;
      }
      dev' := dev.(isUnlocked := true);
      SendNotification(config.notifications.deviceUnlocked, "Device Unlocked", GetDisplayName(dev) + " unlocked");
      AppendAssoc(old(effects), [cmd.value], NotifyIf(config, config.notifications.deviceUnlocked, "Device Unlocked", GetDisplayName(dev) + " unlocked"));
      ok := true;
    }

    /**
     * The part of mountDevice after any unlock: create the mount directory,
     * run mount(8) with the options the configuration chooses, and on
     * success record the device, notify, run the hook and open the file
     * manager.
     */
    method MountUnlocked(d: Device, mountPoint: string, world: World) returns (d': Device, ok: bool)
      requires Valid() && HasDisplayName(d) && !d.isMounted
      modifies this
      ensures Valid() && knownDevices == old(knownDevices) && old(effects) <= effects
      ensures ok <==> mountPoint !in world.mkdirFails && d.path !in world.mountFails
      ensures effects == old(effects) + MountUnlockedEffects(config, d, mountPoint, world)
      ensures ok ==> d' == d.(mountPoint := mountPoint, isMounted := true) && mounted == old(mounted)[d.path := d']
      ensures !ok ==> d' == d && mounted == old(mounted)
    {
      effects := effects + [MakeDirs(mountPoint)];
      if mountPoint in world.mkdirFails {
        assert MountUnlockedEffects(config, d, mountPoint, world) == [MakeDirs(mountPoint)];
        return d, false;
      }
      RunMount(d, mountPoint);
      if d.path in world.mountFails {
        assert MountUnlockedEffects(config, d, mountPoint, world) == [MakeDirs(mountPoint)] + [MountCommand(config, d, mountPoint)];
        AppendAssoc(old(effects), [MakeDirs(mountPoint)], [MountCommand(config, d, mountPoint)]);
        return d, false;
      }
      d' := d.(mountPoint := mountPoint, isMounted := true);
      Record(d');
      AnnounceMount(d');
      assert MountUnlockedEffects(config, d, mountPoint, world)
        == [MakeDirs(mountPoint)] + ([MountCommand(config, d, mountPoint)] + AnnounceEffects(config, d'));
      AppendAssoc4(old(effects), [MakeDirs(mountPoint)], [MountCommand(config, d, mountPoint)], AnnounceEffects(config, d'), []);
      ok := true;
    }

    /** Runs mount(8) with the configured options for the device's filesystem. */
    method RunMount(d: Device, mountPoint: string)
      modifies this
      ensures mounted == old(mounted) && knownDevices == old(knownDevices)
      ensures effects == old(effects) + [MountCommand(config, d, mountPoint)]
    {
      var opts := GetMountOptions(config, d.fsType, d.volumeLabel, d.uuid, d.path);
      var args := BuildMountArgs(opts, d.fsType, d.path, mountPoint);
      effects := effects + [Exec("mount", args, "")];
    }

    /** Files a mounted device under its path. */
    method Record(d: Device)
      requires Valid() && d.isMounted && HasDisplayName(d)
      modifies this
      ensures Valid() && mounted == old(mounted)[d.path := d]
      ensures effects == old(effects) && knownDevices == old(knownDevices)
    {
      mounted := mounted[d.path := d];
    }

    /** After a mount: the notification, the `device_mounted` hook and the file manager. */
    method AnnounceMount(d: Device)
      requires HasDisplayName(d)
      modifies this
      ensures mounted == old(mounted) && knownDevices == old(knownDevices)
      ensures effects == old(effects) + AnnounceEffects(config, d)
    {
      SendNotification(config.notifications.deviceMounted, "Device Mounted", GetDisplayName(d) + " mounted at " + d.mountPoint);
      ExecuteEventHook("device_mounted", d);
      if config.fileManager != "" {
        effects := effects + [Launch(config.fileManager, d.mountPoint)];
      }
    }

    /**
     * mountDevice: refuses a mounted device without doing anything; unlocks
     * an encrypted, locked device first and stops when that fails; then
     * creates the mount directory and runs mount(8). Only a successful mount
     * records the device, mounted on its mount directory, in `mounted`.
     */
    method MountDevice(dev: Device, world: World) returns (dev': Device, ok: bool)
      requires Valid() && HasDisplayName(dev)
      modifies this
      ensures Valid() && knownDevices == old(knownDevices) && old(effects) <= effects
      ensures dev.isMounted ==> !ok && dev' == dev && mounted == old(mounted) && effects == old(effects)
      ensures ok <==> MountSucceeds(config, dev, world)
      ensures ok ==> dev' == MountedAs(config, dev) && mounted == old(mounted)[dev.path := dev']
      ensures !ok ==> mounted == old(mounted) && (dev' == dev || dev' == dev.(isUnlocked := true))
      ensures effects == old(effects) + MountEffects(config, dev, world)
    {
      if dev.isMounted {
        assert MountEffects(config, dev, world) == [];
        return dev, false;
      }
      var d := dev;
      ghost var unlocking: seq<Effect> := [];
      if d.isEncrypted && !d.isUnlocked {
        var unlocked;
        d, unlocked := UnlockDevice(d, world);
        unlocking := UnlockEffects(config, dev, world);
        if !unlocked {
          assert MountEffects(config, dev, world) == unlocking;
          return d, false;
        }
      }
      assert effects == old(effects) + unlocking;
      var dir := GetMountDirectory(dev, config.mountBase);
      assert d.volumeLabel == dev.volumeLabel && d.uuid == dev.uuid && d.name == dev.name;
      assert GetMountDirectory(d, config.mountBase) == dir;
      assert d == if NeedsUnlock(dev) then dev.(isUnlocked := true) else dev;
      dev', ok := MountUnlocked(d, dir, world);
      assert MountEffects(config, dev, world) == unlocking + MountUnlockedEffects(config, d, dir, world);
      AppendAssoc(old(effects), unlocking, MountUnlockedEffects(config, d, dir, world));
    }

    /**
     * unmountDevice: refuses a device that is not mounted; runs umount(8) on
     * its mount point; only when that succeeds is the device marked
     * unmounted and its entry removed from `mounted`, so a failed attempt can
     * be retried.
     */
    method UnmountDevice(dev: Device, world: World) returns (dev': Device, ok: bool)
      requires Valid() && HasDisplayName(dev)
      modifies this
      ensures Valid() && knownDevices == old(knownDevices) && old(effects) <= effects
      ensures ok <==> dev.isMounted && dev.mountPoint !in world.umountFails
      ensures effects == old(effects) + UnmountEffects(config, dev, world)
      ensures ok ==> dev' == dev.(mountPoint := "", isMounted := false) && mounted == old(mounted) - {dev.path}
      ensures !ok ==> dev' == dev && mounted == old(mounted)
    {
      if !dev.isMounted {
        assert UnmountEffects(config, dev, world) == [];
        return dev, false;
      }
      var run := Exec("umount", [dev.mountPoint], "");
      assert run == UnmountCommand(dev.mountPoint);
      effects := effects + [run];
      if dev.mountPoint in world.umountFails {
        assert UnmountEffects(config, dev, world) == [run];
        return dev, false;
      }
      var mountPoint := dev.mountPoint;
      dev' := dev.(mountPoint := "", isMounted := false);
      mounted := mounted - {dev.path};
      effects := effects + [RemoveDir(mountPoint)];
      SendNotification(config.notifications.deviceUnmounted, "Device Unmounted", GetDisplayName(dev) + " unmounted");
      ExecuteEventHook("device_unmounted", dev');
      AppendAssoc4(old(effects), [run], [RemoveDir(mountPoint)],
        NotifyIf(config, config.notifications.deviceUnmounted, "Device Unmounted", GetDisplayName(dev) + " unmounted"),
        EventHook(config, "device_unmounted", dev'));
      ok := true;
    }

    /**
     * A mount followed by an unmount of the record it produced leaves no
     * entry for the device, whatever `mounted` held for it before; when
     * either step fails the entry is as the failed step left it.
     */
    method MountThenUnmount(dev: Device, world: World) returns (mountOk: bool, unmountOk: bool)
      requires Valid() && HasDisplayName(dev) && !dev.isMounted
      modifies this
      ensures Valid() && knownDevices == old(knownDevices)
      ensures mountOk <==> MountSucceeds(config, dev, world)
      ensures unmountOk <==> mountOk && GetMountDirectory(dev, config.mountBase) !in world.umountFails
      ensures unmountOk ==> mounted == old(mounted) - {dev.path}
      ensures mountOk && !unmountOk ==> mounted == old(mounted)[dev.path := MountedAs(config, dev)]
      ensures !mountOk ==> mounted == old(mounted)
    {
      var dev', ok := MountDevice(dev, world);
      mountOk, unmountOk := ok, false;
      if ok {
        var _, u := UnmountDevice(dev', world);
        unmountOk := u;
      }
    }

    /**
     * onDeviceAdded: an ignored device gets no notification, no hook and no
     * mount; otherwise a mount is attempted only for a partition the policy
     * automounts.
     */
    method OnDeviceAdded(dev: Device, world: World)
      requires Valid() && HasDisplayName(dev)
      modifies this
      ensures Valid() && knownDevices == old(knownDevices) && old(effects) <= effects
      ensures ShouldIgnoreDevice(config, dev.volumeLabel, dev.uuid, dev.path) ==>
        effects == old(effects) && mounted == old(mounted)
      ensures mounted == AfterAdded(config, old(mounted), dev, world)
      ensures effects == old(effects) + AddedEffects(config, dev, world)
    {
      if ShouldIgnoreDevice(config, dev.volumeLabel, dev.uuid, dev.path) {
        assert AddedEffects(config, dev, world) == [];
        return;
      }
      ghost var announce := NotifyIf(config, config.notifications.deviceAdded, "Device Added", GetDisplayName(dev) + " connected");
      ghost var hook := EventHook(config, "device_added", dev);
      SendNotification(config.notifications.deviceAdded, "Device Added", GetDisplayName(dev) + " connected");
      ExecuteEventHook("device_added", dev);
      ghost var mounting: seq<Effect> := [];
      if dev.isPartition && ShouldAutomountDevice(config, dev.volumeLabel, dev.uuid, dev.path) {
        Automount(dev, world);
        mounting := AutomountEffects(config, dev, world);
      }
      assert AddedEffects(config, dev, world) == announce + hook + mounting;
      AppendAssoc4(old(effects), announce, hook, mounting, []);
    }

    /** The automount step of onDeviceAdded: mountDevice, and the "Mount Failed" notification when it fails. */
    method Automount(dev: Device, world: World)
      requires Valid() && HasDisplayName(dev)
      modifies this
      ensures Valid() && knownDevices == old(knownDevices) && old(effects) <= effects
      ensures mounted == if MountSucceeds(config, dev, world) then old(mounted)[dev.path := MountedAs(config, dev)] else old(mounted)
      ensures effects == old(effects) + AutomountEffects(config, dev, world)
    {
      var _, ok := MountDevice(dev, world);
      if !ok {
        SendNotification(config.notifications.jobFailed, "Mount Failed", "Failed to mount " + GetDisplayName(dev));
      }
    }

    /**
     * onDeviceRemoved: unmounts the device only when `mounted` holds its
     * path, then notifies under its display name (or the bare path).
     */
    method OnDeviceRemoved(path: string, world: World)
      requires Valid()
      modifies this
      ensures Valid() && knownDevices == old(knownDevices) && old(effects) <= effects
      ensures path !in old(mounted) ==>
        mounted == old(mounted)
        && effects == old(effects) + NotifyIf(config, config.notifications.deviceRemoved, "Device Removed", path + " disconnected")
      ensures path in old(mounted) ==>
        mounted == (if old(mounted)[path].mountPoint in world.umountFails then old(mounted) else old(mounted) - {path})
      ensures effects == old(effects) + RemovedEffects(config, old(mounted), path, world)
    {
      var displayName := path;
      if path in mounted {
        var dev := mounted[path];
        var _, _ := UnmountDevice(dev, world);
        displayName := GetDisplayName(dev);
      }
      SendNotification(config.notifications.deviceRemoved, "Device Removed", displayName + " disconnected");
    }

    /** The step of pollDevices for one scanned device: onDeviceAdded the first time its path is seen. */
    method Admit(d: Device, world: World) returns (isNew: bool)
      requires Valid() && HasDisplayName(d)
      modifies this
      ensures Valid() && old(effects) <= effects
      ensures isNew <==> d.path !in old(knownDevices)
      ensures knownDevices == old(knownDevices) + {d.path}
      ensures isNew ==> mounted == AfterAdded(config, old(mounted), d, world)
      ensures isNew ==> effects == old(effects) + AddedEffects(config, d, world)
      ensures !isNew ==> mounted == old(mounted) && effects == old(effects)
    {
      isNew := d.path !in knownDevices;
      if isNew {
        OnDeviceAdded(d, world);
        knownDevices := knownDevices + {d.path};
      }
    }

    /** The first loop of a poll tick: each scanned device in scan order. */
    method AdmitAll(ds: seq<Device>, world: World) returns (added: seq<string>)
      requires Valid()
      requires forall d :: d in ds ==> HasDisplayName(d)
      modifies this
      ensures Valid() && old(effects) <= effects
      ensures knownDevices == old(knownDevices) + PathSet(ds)
      ensures added == NewPaths(old(knownDevices), ds)
      ensures mounted == AdmittedTable(config, old(knownDevices), old(mounted), ds, world)
      ensures effects == old(effects) + AdmittedEffects(config, old(knownDevices), ds, world)
    {
      added := [];
      for i := 0 to |ds|
        invariant Valid() && old(effects) <= effects
        invariant knownDevices == old(knownDevices) + PathSet(ds[..i])
        invariant added == NewPaths(old(knownDevices), ds[..i])
        invariant mounted == AdmittedTable(config, old(knownDevices), old(mounted), ds[..i], world)
        invariant effects == old(effects) + EachAdded(config, Arrivals(old(knownDevices), ds[..i]), world)
      {
        assert ds[..i + 1][..i] == ds[..i];
        assert ds[i] in ds;
        ghost var arrived := Arrivals(old(knownDevices), ds[..i]);
        var isNew := Admit(ds[i], world);
        if isNew {
          added := added + [ds[i].path];
          assert Arrivals(old(knownDevices), ds[..i + 1]) == arrived + [ds[i]];
          assert (arrived + [ds[i]])[..|arrived|] == arrived;
          assert EachAdded(config, arrived + [ds[i]], world) == EachAdded(config, arrived, world) + AddedEffects(config, ds[i], world);
          AppendAssoc(old(effects), EachAdded(config, arrived, world), AddedEffects(config, ds[i], world));
        } else {
          assert Arrivals(old(knownDevices), ds[..i + 1]) == arrived + [];
          assert arrived + [] == arrived;
        }
      }
      assert ds[..|ds|] == ds;
    }

    /**
     * The second loop of a poll tick: onDeviceRemoved for each vanished
     * path. Go ranges over a map, whose order is unspecified, so the order
     * is an input: `order` lists the vanished paths, each once.
     */
    method RemoveAll(order: seq<string>, world: World)
      requires Valid() && Distinct(order)
      modifies this
      ensures Valid() && old(effects) <= effects
      ensures knownDevices == old(knownDevices) - Elems(order)
      ensures mounted == AfterRemoved(old(mounted), Elems(order), world)
      ensures effects == old(effects) + EachRemoved(config, old(mounted), order, world)
    {
      for i := 0 to |order|
        invariant Valid() && old(effects) <= effects
        invariant knownDevices == old(knownDevices) - Elems(order[..i])
        invariant mounted == AfterRemoved(old(mounted), Elems(order[..i]), world)
        invariant effects == old(effects) + EachRemoved(config, old(mounted), order[..i], world)
      {
        var p := order[i];
        assert order[..i + 1][..i] == order[..i];
        assert Elems(order[..i + 1]) == Elems(order[..i]) + {p} by {
          assert order[..i + 1] == order[..i] + [p];
        }
        assert p !in Elems(order[..i]);
        ghost var before := mounted;
        RemovedStep(old(mounted), before, Elems(order[..i]), p, world);
        RemovedEffectsOfEntry(config, before, old(mounted), p, world);
        OnDeviceRemoved(p, world);
        knownDevices := knownDevices - {p};
        assert EachRemoved(config, old(mounted), order[..i + 1], world)
          == EachRemoved(config, old(mounted), order[..i], world) + RemovedEffects(config, old(mounted), p, world);
        AppendAssoc(old(effects), EachRemoved(config, old(mounted), order[..i], world), RemovedEffects(config, old(mounted), p, world));
      }
      assert order[..|order|] == order;
    }

    /**
     * One tick of pollDevices over a scan: a failed scan changes nothing;
     * otherwise onDeviceAdded runs once for each newly seen path, in scan
     * order (AdmittedEffects, ArrivalsCarryNewPaths), then onDeviceRemoved
     * once for each known path the scan lacks, in `order` (EachRemoved),
     * and the known set becomes the scanned paths. PollTableEntries states
     * what the resulting table holds.
     */
    method PollTick(scan: Option<seq<Device>>, order: seq<string>, world: World) returns (added: seq<string>, removed: set<string>)
      requires Valid()
      requires scan.Some? ==> forall d :: d in scan.value ==> HasDisplayName(d)
      requires scan.Some? ==> Distinct(order) && Elems(order) == knownDevices - PathSet(scan.value)
      modifies this
      ensures Valid() && old(effects) <= effects
      ensures scan.None? ==>
        added == [] && removed == {} && knownDevices == old(knownDevices)
        && mounted == old(mounted) && effects == old(effects)
      ensures scan.Some? ==> knownDevices == PathSet(scan.value)
      ensures scan.Some? ==> added == NewPaths(old(knownDevices), scan.value)
      ensures scan.Some? ==> removed == old(knownDevices) - PathSet(scan.value)
      ensures scan.Some? ==> mounted == PollTable(config, old(knownDevices), old(mounted), scan.value, world)
      ensures scan.Some? ==>
        effects == old(effects) + AdmittedEffects(config, old(knownDevices), scan.value, world)
          + EachRemoved(config, AdmittedTable(config, old(knownDevices), old(mounted), scan.value, world), order, world)
    {
      added, removed := [], {};
      if scan.None? {
        return;
      }
      added := AdmitAll(scan.value, world);
      removed := knownDevices - PathSet(scan.value);
      assert removed == old(knownDevices) - PathSet(scan.value) == Elems(order);
      RemoveAll(order, world);
    }

    /** The body of MountAll's loop: mountDevice on the device when it is an unmounted partition. */
    method MountIfUnmountedPartition(d: Device, world: World)
      requires Valid() && HasDisplayName(d)
      modifies this
      ensures Valid() && knownDevices == old(knownDevices) && old(effects) <= effects
      ensures mounted == if d.isPartition && MountSucceeds(config, d, world) then old(mounted)[d.path := MountedAs(config, d)] else old(mounted)
      ensures effects == old(effects) + if d.isPartition && !d.isMounted then MountEffects(config, d, world) else []
    {
      if d.isPartition && !d.isMounted {
        var _, _ := MountDevice(d, world);
      }
    }

    /**
     * MountAll: a failed scan is an error; otherwise a mount is attempted
     * for every unmounted partition of the scan, and a failure does not stop
     * the others.
     */
    method MountAll(scan: Option<seq<Device>>, world: World) returns (ok: bool)
      requires Valid()
      requires scan.Some? ==> forall d :: d in scan.value ==> HasDisplayName(d)
      modifies this
      ensures Valid() && knownDevices == old(knownDevices)
      ensures ok <==> scan.Some?
      ensures scan.None? ==> mounted == old(mounted) && effects == old(effects)
      ensures old(effects) <= effects
      ensures scan.Some? ==> mounted.Keys <= old(mounted).Keys + set d | d in scan.value && d.isPartition && !d.isMounted :: d.path
      ensures scan.Some? ==> mounted == MountAllTable(config, old(mounted), scan.value, world)
      ensures scan.Some? ==> effects == old(effects) + MountAllEffects(config, scan.value, world)
    {
      if scan.None? {
        return false;
      }
      var ds := scan.value;
      for i := 0 to |ds|
        invariant Valid() && knownDevices == old(knownDevices) && old(effects) <= effects
        invariant mounted.Keys <= old(mounted).Keys + set d | d in ds[..i] && d.isPartition && !d.isMounted :: d.path
        invariant mounted == MountAllTable(config, old(mounted), ds[..i], world)
        invariant effects == old(effects) + MountAllEffects(config, ds[..i], world)
      {
        assert ds[i] in ds;
        assert ds[..i + 1][..i] == ds[..i];
        ghost var step := if ds[i].isPartition && !ds[i].isMounted then MountEffects(config, ds[i], world) else [];
        MountIfUnmountedPartition(ds[i], world);
        assert ds[..i + 1] == ds[..i] + [ds[i]];
        assert MountAllEffects(config, ds[..i + 1], world) == MountAllEffects(config, ds[..i], world) + step;
        AppendAssoc(old(effects), MountAllEffects(config, ds[..i], world), step);
      }
      assert ds[..|ds|] == ds;
      return true;
    }
  }
}
