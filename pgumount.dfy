/**
 * The pgumount command (cmd/pgumount/main.go): finding the target by
 * device or mount point, the unmount itself, the --detach fallback and the
 * -a batch.
 */
module PgUmount {
  import opened Text
  import opened Wrappers
  import opened DeviceRecord
  import opened Commands
  import PgMount

  /** The argument names a device as pgmount's does, or by its mount point. */
  predicate NamesTarget(d: Device, target: string) {
    PgMount.NamesDevice(d, target) || d.mountPoint == target
  }

  function FirstTargetFrom(ds: seq<Device>, from: nat, target: string): (r: Option<nat>)
    requires from <= |ds|
    ensures r.Some? ==> from <= r.value < |ds| && NamesTarget(ds[r.value], target)
    ensures r.Some? ==> forall j :: from <= j < r.value ==> !NamesTarget(ds[j], target)
    ensures r.None? <==> forall j :: from <= j < |ds| ==> !NamesTarget(ds[j], target)
    decreases |ds| - from
  {
    if from == |ds| then None
    else if NamesTarget(ds[from], target) then Some(from)
    else FirstTargetFrom(ds, from + 1, target)
  }

  function FirstTarget(ds: seq<Device>, target: string): Option<nat> {
    FirstTargetFrom(ds, 0, target)
  }

  /** The lookup loop of pgumount, which stops at the first device the argument names. */
  method FindTarget(ds: seq<Device>, target: string) returns (r: Option<nat>)
    ensures r == FirstTarget(ds, target)
  {
    r := None;
    var i := 0;
    while i < |ds|
      invariant 0 <= i <= |ds|
      invariant FirstTargetFrom(ds, i, target) == FirstTarget(ds, target)
    {
      var d := ds[i];
      if d.path == target || d.name == target || "/dev/" + d.name == target || d.mountPoint == target {
        r := Some(i);
        break;
      }
      i := i + 1;
    }
  }

  /** A mount point names its device for pgumount, unless an earlier device is named first. */
  lemma MountPointFindsDevice(ds: seq<Device>, i: nat)
    requires i < |ds| && ds[i].mountPoint != ""
    requires forall j :: 0 <= j < i ==> !NamesTarget(ds[j], ds[i].mountPoint)
    ensures FirstTarget(ds, ds[i].mountPoint) == Some(i)
  {
  }

  // ---------------------------------------------------------------------
  // Unmounting

  predicate UnmountOk(dev: Device, world: World) {
    dev.mountPoint !in world.umountFails
  }

  /** umount(8), then removal of the emptied mount point when it succeeded. */
  function UnmountEffects(dev: Device, force: bool, world: World): seq<Effect> {
    [Exec("umount", UnmountArgs(force, dev.mountPoint), "")]
    + if UnmountOk(dev, world) then [RemoveDir(dev.mountPoint)] else []
  }

  /** unmountDevice: -f only when forced, then the mount point. The device record is not changed. */
  method UnmountDevice(dev: Device, force: bool, world: World) returns (ok: bool, effects: seq<Effect>)
    ensures ok == UnmountOk(dev, world)
    ensures effects == UnmountEffects(dev, force, world)
  {
    var args: seq<string> := [];
    if force {
      args := args + ["-f"];
    }
    args := args + [dev.mountPoint];
    assert args == UnmountArgs(force, dev.mountPoint);
    effects := [Exec("umount", args, "")];
    if dev.mountPoint in world.umountFails {
      return false, effects;
    }
    effects := effects + [RemoveDir(dev.mountPoint)];
    ok := true;
  }

  // ---------------------------------------------------------------------
  // Detaching

  /** The disk detachDevice ejects: the name without its last two characters when the second-to-last is 'p'. */
  function DetachDiskName(name: string): (r: string)
    ensures r <= name
    ensures |name| > 2 && name[|name| - 2] == 'p' ==> |r| == |name| - 2
    ensures !(|name| > 2 && name[|name| - 2] == 'p') ==> r == name
  {
    if |name| > 2 && name[|name| - 2] == 'p' then name[..|name| - 2] else name
  }

  /** A GPT partition with a one-digit index gives its disk back. */
  lemma DetachGptPartition(disk: string, index: char)
    requires |disk| >= 1 && IsDigit(index)
    ensures DetachDiskName(disk + ['p', index]) == disk
  {
    var name := disk + ['p', index];
    assert name[|name| - 2] == 'p';
    assert name[..|name| - 2] == disk;
  }

  /** The heuristic leaves MBR slices and two-digit GPT indices alone. */
  lemma DetachExamples()
    ensures DetachDiskName("da0p1") == "da0"
    ensures DetachDiskName("da0s1") == "da0s1"
    ensures DetachDiskName("da0p10") == "da0p10"
  {
    DetachGptPartition("da0", '1');
  }

  function EjectRun(disk: string): Effect {
    Exec("camcontrol", ["eject", disk], "")
  }

  function PowerOffRun(disk: string): Effect {
    Exec("usbconfig", ["-d", disk, "power_off"], "")
  }

  predicate DetachOk(name: string, world: World) {
    var disk := DetachDiskName(name);
    disk !in world.ejectFails || disk !in world.powerOffFails
  }

  /** camcontrol eject, and usbconfig power_off only when that fails. */
  function DetachEffects(name: string, world: World): seq<Effect> {
    var disk := DetachDiskName(name);
    [EjectRun(disk)] + if disk in world.ejectFails then [PowerOffRun(disk)] else []
  }

  /** detachDevice: it fails only when both camcontrol and usbconfig fail. */
  method Detach(name: string, world: World) returns (ok: bool, effects: seq<Effect>)
    ensures ok == DetachOk(name, world)
    ensures effects == DetachEffects(name, world)
  {
    var disk := name;
    if |disk| > 2 {
      if disk[|disk| - 2] == 'p' {
        disk := disk[..|disk| - 2];
      }
    }
    effects := [Exec("camcontrol", ["eject", disk], "")];
    if disk in world.ejectFails {
      effects := effects + [Exec("usbconfig", ["-d", disk, "power_off"], "")];
      if disk in world.powerOffFails {
        return false, effects;
      }
    }
    ok := true;
  }

  // ---------------------------------------------------------------------
  // The command

  datatype Outcome =
    | ScanFailed
    | NotFound
    | NotMounted(path: string)
    | UnmountFailed
    | DetachFailed
    | Unmounted(path: string)

  /**
   * pgumount with one argument: the first device the argument names is
   * unmounted, and detached with --detach, unless the scan failed, nothing
   * matches or the device is not mounted; in those cases nothing is done.
   */
  method UnmountTarget(scan: Option<seq<Device>>, target: string, force: bool, detach: bool, world: World)
    returns (out: Outcome, effects: seq<Effect>)
    ensures scan.None? ==> out == ScanFailed && effects == []
    ensures scan.Some? && FirstTarget(scan.value, target).None? ==> out == NotFound && effects == []
    ensures scan.Some? && FirstTarget(scan.value, target).Some? ==>
      var d := scan.value[FirstTarget(scan.value, target).value];
      && (!d.isMounted ==> out == NotMounted(d.path) && effects == [])
      && (d.isMounted && !UnmountOk(d, world) ==> out == UnmountFailed && effects == UnmountEffects(d, force, world))
      && (d.isMounted && UnmountOk(d, world) ==>
            effects == UnmountEffects(d, force, world) + (if detach then DetachEffects(d.name, world) else [])
            && out == if detach && !DetachOk(d.name, world) then DetachFailed else Unmounted(d.path))
  {
    if scan.None? {
      return ScanFailed, [];
    }
    var ds := scan.value;
    var found := FindTarget(ds, target);
    if found.None? {
      return NotFound, [];
    }
    var d := ds[found.value];
    if !d.isMounted {
      return NotMounted(d.path), [];
    }
    var ok;
    ok, effects := UnmountDevice(d, force, world);
    if !ok {
      return UnmountFailed, effects;
    }
    if detach {
      var detached, e := Detach(d.name, world);
      effects := effects + e;
      if !detached {
        return DetachFailed, effects;
      }
    }
    out := Unmounted(d.path);
  }

  /** The number of mounted devices whose unmount succeeds. */
  function UnmountAllCount(ds: seq<Device>, world: World): nat
    decreases |ds|
  {
    if ds == [] then 0
    else
      var d := ds[|ds| - 1];
      UnmountAllCount(ds[..|ds| - 1], world) + if d.isMounted && UnmountOk(d, world) then 1 else 0
  }

  /** The number of mounted devices. */
  function MountedCount(ds: seq<Device>): nat
    decreases |ds|
  {
    if ds == [] then 0
    else MountedCount(ds[..|ds| - 1]) + if ds[|ds| - 1].isMounted then 1 else 0
  }

  /** The effects of pgumount -a for one device. */
  function UnmountAllStep(d: Device, force: bool, detach: bool, world: World): seq<Effect> {
    if !d.isMounted then []
    else UnmountEffects(d, force, world) + if detach && UnmountOk(d, world) then DetachEffects(d.name, world) else []
  }

  function UnmountAllEffects(ds: seq<Device>, force: bool, detach: bool, world: World): seq<Effect>
    decreases |ds|
  {
    if ds == [] then []
    else UnmountAllEffects(ds[..|ds| - 1], force, detach, world) + UnmountAllStep(ds[|ds| - 1], force, detach, world)
  }

  /** The count never exceeds the number of mounted devices, and equals it when no unmount fails. */
  lemma {:induction false} UnmountAllCountBounds(ds: seq<Device>, world: World)
    ensures UnmountAllCount(ds, world) <= MountedCount(ds)
    ensures world.umountFails == {} ==> UnmountAllCount(ds, world) == MountedCount(ds)
    decreases |ds|
  {
    if ds != [] {
      UnmountAllCountBounds(ds[..|ds| - 1], world);
    }
  }

  /**
   * pgumount -a ejects a disk only for a device it has just unmounted:
   * every camcontrol eject names the detach disk of a mounted device whose
   * unmount succeeded.
   */
  lemma {:induction false} EjectOnlyAfterUnmount(ds: seq<Device>, force: bool, detach: bool, world: World, disk: string)
    requires EjectRun(disk) in UnmountAllEffects(ds, force, detach, world)
    ensures detach
    ensures exists d :: d in ds && d.isMounted && UnmountOk(d, world) && DetachDiskName(d.name) == disk
    decreases |ds|
  {
    var init := ds[..|ds| - 1];
    var d := ds[|ds| - 1];
    if EjectRun(disk) in UnmountAllEffects(init, force, detach, world) {
      EjectOnlyAfterUnmount(init, force, detach, world, disk);
      var e :| e in init && e.isMounted && UnmountOk(e, world) && DetachDiskName(e.name) == disk;
      assert e in ds;
    } else {
      assert EjectRun(disk) in UnmountAllStep(d, force, detach, world);
      assert d in ds;
    }
  }

  /**
   * pgumount -a: a failed scan is fatal (`ok` false, nothing done);
   * otherwise every mounted device is tried, failures included, and a
   * detach follows each successful unmount.
   */
  method UnmountAll(scan: Option<seq<Device>>, force: bool, detach: bool, world: World) returns (ok: bool, count: nat, effects: seq<Effect>)
    ensures ok <==> scan.Some?
    ensures scan.None? ==> count == 0 && effects == []
    ensures scan.Some? ==> count == UnmountAllCount(scan.value, world)
    ensures scan.Some? ==> effects == UnmountAllEffects(scan.value, force, detach, world)
  {
    ok, count, effects := false, 0, [];
    if scan.None? {
      return;
    }
    ok := true;
    var ds := scan.value;
    for i := 0 to |ds|
      invariant count == UnmountAllCount(ds[..i], world)
      invariant effects == UnmountAllEffects(ds[..i], force, detach, world)
    {
      assert ds[..i + 1][..i] == ds[..i];
      var ok, e := UnmountAllOne(ds[i], force, detach, world);
      effects := effects + e;
      if ok {
        count := count + 1;
      }
    }
    assert ds[..|ds|] == ds;
  }

  /** The body of the pgumount -a loop for one device. */
  method UnmountAllOne(d: Device, force: bool, detach: bool, world: World) returns (ok: bool, effects: seq<Effect>)
    ensures ok == (d.isMounted && UnmountOk(d, world))
    ensures effects == UnmountAllStep(d, force, detach, world)
  {
    ok, effects := false, [];
    if d.isMounted {
      ok, effects := UnmountDevice(d, force, world);
      if ok && detach {
        var _, e := Detach(d.name, world);
        effects := effects + e;
      }
    }
  }
}
