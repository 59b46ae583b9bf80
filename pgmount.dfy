/**
 * The pgmount command (cmd/pgmount/main.go): finding the target device,
 * the -o and -t overrides, the mount itself and the -a batch. Unlike the
 * daemon, pgmount neither unlocks encrypted devices nor records mounts
 * anywhere but in the device it was given.
 */
module PgMount {
  import opened Text
  import opened Wrappers
  import opened DeviceRecord
  import opened Config
  import opened Commands

  /** The argument names a device by its path, its name, or "/dev/" and its name. */
  predicate NamesDevice(d: Device, arg: string) {
    d.path == arg || d.name == arg || "/dev/" + d.name == arg
  }

  /** The index of the first device at or after `from` that the argument names. */
  function FirstNamedFrom(ds: seq<Device>, from: nat, arg: string): (r: Option<nat>)
    requires from <= |ds|
    ensures r.Some? ==> from <= r.value < |ds| && NamesDevice(ds[r.value], arg)
    ensures r.Some? ==> forall j :: from <= j < r.value ==> !NamesDevice(ds[j], arg)
    ensures r.None? <==> forall j :: from <= j < |ds| ==> !NamesDevice(ds[j], arg)
    decreases |ds| - from
  {
    if from == |ds| then None
    else if NamesDevice(ds[from], arg) then Some(from)
    else FirstNamedFrom(ds, from + 1, arg)
  }

  function FirstNamed(ds: seq<Device>, arg: string): Option<nat> {
    FirstNamedFrom(ds, 0, arg)
  }

  /** The lookup loop of pgmount, which stops at the first device the argument names. */
  method FindTarget(ds: seq<Device>, arg: string) returns (r: Option<nat>)
    ensures r == FirstNamed(ds, arg)
  {
    r := None;
    var i := 0;
    while i < |ds|
      invariant 0 <= i <= |ds|
      invariant FirstNamedFrom(ds, i, arg) == FirstNamed(ds, arg)
    {
      if ds[i].path == arg || ds[i].name == arg || "/dev/" + ds[i].name == arg {
        r := Some(i);
        break;
      }
      i := i + 1;
    }
  }

  /** The -t and -o flags. */
  datatype CliOptions = CliOptions(fsType: string, options: string)

  /** A non-empty -o replaces the configured options entirely, split at commas. */
  function EffectiveOptions(cfg: Config, dev: Device, o: CliOptions): seq<string> {
    if o.options != "" then Split(o.options, ",")
    else GetMountOptions(cfg, dev.fsType, dev.volumeLabel, dev.uuid, dev.path)
  }

  /** A non-empty -t replaces the device's filesystem type. */
  function EffectiveType(dev: Device, o: CliOptions): string {
    if o.fsType != "" then o.fsType else dev.fsType
  }

  /**
   * A non-empty -o reaches mount(8) exactly as typed, whatever the
   * configuration says, and a non-empty -t other than "auto" reaches it as
   * the type.
   */
  lemma FlagsReachMount(cfg: Config, dev: Device, o: CliOptions, mountPoint: string)
    requires IsOperand(dev.path) && IsOperand(mountPoint)
    requires o.options != ""
    ensures var req := ReadMountArgs(MountArgs(EffectiveOptions(cfg, dev, o), EffectiveType(dev, o), dev.path, mountPoint));
      && req.Some?
      && req.value.options == o.options
      && (o.fsType != "" ==> req.value.fstype == if ExplicitType(o.fsType) then o.fsType else "")
      && req.value.special == dev.path && req.value.node == mountPoint
  {
    JoinSplit(o.options, ",");
    MountArgsRoundTrip(EffectiveOptions(cfg, dev, o), EffectiveType(dev, o), dev.path, mountPoint);
  }

  /** Whether pgmount's mountDevice succeeds: MkdirAll and then mount(8). */
  predicate MountOk(cfg: Config, dev: Device, world: World)
    requires HasDisplayName(dev)
  {
    GetMountDirectory(dev, cfg.mountBase) !in world.mkdirFails && dev.path !in world.mountFails
  }

  /** The effects of pgmount's mountDevice: the mount directory, then mount(8) unless that failed. */
  function MountEffects(cfg: Config, dev: Device, o: CliOptions, world: World): seq<Effect>
    requires HasDisplayName(dev)
  {
    var mp := GetMountDirectory(dev, cfg.mountBase);
    [MakeDirs(mp)]
    + if mp in world.mkdirFails then [] else [Exec("mount", MountArgs(EffectiveOptions(cfg, dev, o), EffectiveType(dev, o), dev.path, mp), "")]
  }

  /**
   * mountDevice: the device is marked mounted on its mount directory only
   * after mount(8) succeeds. It does not look at `isMounted` itself.
   */
  method MountDevice(cfg: Config, dev: Device, o: CliOptions, world: World) returns (dev': Device, ok: bool, effects: seq<Effect>)
    requires HasDisplayName(dev)
    ensures ok == MountOk(cfg, dev, world)
    ensures effects == MountEffects(cfg, dev, o, world)
    ensures dev' == if ok then dev.(mountPoint := GetMountDirectory(dev, cfg.mountBase), isMounted := true) else dev
  {
    var mountPoint := GetMountDirectory(dev, cfg.mountBase);
    effects := [MakeDirs(mountPoint)];
    if mountPoint in world.mkdirFails {
      return dev, false, effects;
    }
    var opts := GetMountOptions(cfg, dev.fsType, dev.volumeLabel, dev.uuid, dev.path);
    if o.options != "" {
      opts := Split(o.options, ",");
    }
    var fs := dev.fsType;
    if o.fsType != "" {
      fs := o.fsType;
    }
    var args := BuildMountArgs(opts, fs, dev.path, mountPoint);
    effects := effects + [Exec("mount", args, "")];
    if dev.path in world.mountFails {
      return dev, false, effects;
    }
    dev' := dev.(mountPoint := mountPoint, isMounted := true);
    ok := true;
  }

  datatype Outcome =
    | ScanFailed
    | NotFound
    | AlreadyMounted(mountPoint: string)
    | MountFailed
    | Mounted(path: string, mountPoint: string)

  /**
   * pgmount with one argument: the first device the argument names is
   * mounted, unless the scan failed, nothing matches, or the device is
   * already mounted; in those cases nothing is done at all.
   */
  method MountTarget(cfg: Config, o: CliOptions, scan: Option<seq<Device>>, arg: string, world: World)
    returns (out: Outcome, effects: seq<Effect>)
    requires scan.Some? ==> forall d :: d in scan.value ==> HasDisplayName(d)
    ensures scan.None? ==> out == ScanFailed && effects == []
    ensures scan.Some? && FirstNamed(scan.value, arg).None? ==> out == NotFound && effects == []
    ensures scan.Some? && FirstNamed(scan.value, arg).Some? ==>
      var d := scan.value[FirstNamed(scan.value, arg).value];
      && (d.isMounted ==> out == AlreadyMounted(d.mountPoint) && effects == [])
      && (!d.isMounted ==> effects == MountEffects(cfg, d, o, world))
      && (!d.isMounted ==> out == if MountOk(cfg, d, world) then Mounted(d.path, GetMountDirectory(d, cfg.mountBase)) else MountFailed)
  {
    if scan.None? {
      return ScanFailed, [];
    }
    var ds := scan.value;
    var target := FindTarget(ds, arg);
    if target.None? {
      return NotFound, [];
    }
    var d := ds[target.value];
    assert d in ds;
    if d.isMounted {
      return AlreadyMounted(d.mountPoint), [];
    }
    var d', ok;
    d', ok, effects := MountDevice(cfg, d, o, world);
    if !ok {
      return MountFailed, effects;
    }
    out := Mounted(d'.path, d'.mountPoint);
  }

  /** The devices pgmount -a tries: the unmounted partitions, in scan order. */
  function Attempted(ds: seq<Device>): seq<Device>
    decreases |ds|
  {
    if ds == [] then []
    else Attempted(ds[..|ds| - 1]) + if ds[|ds| - 1].isPartition && !ds[|ds| - 1].isMounted then [ds[|ds| - 1]] else []
  }

  /** The number of tried devices whose mount succeeds. */
  function MountAllCount(cfg: Config, ds: seq<Device>, world: World): nat
    requires forall d :: d in ds ==> HasDisplayName(d)
    decreases |ds|
  {
    if ds == [] then 0
    else
      var d := ds[|ds| - 1];
      MountAllCount(cfg, ds[..|ds| - 1], world)
        + if d.isPartition && !d.isMounted && MountOk(cfg, d, world) then 1 else 0
  }

  /** The effects of pgmount -a: each tried device's, in scan order. */
  function MountAllEffects(cfg: Config, o: CliOptions, ds: seq<Device>, world: World): seq<Effect>
    requires forall d :: d in ds ==> HasDisplayName(d)
    decreases |ds|
  {
    if ds == [] then []
    else
      var d := ds[|ds| - 1];
      MountAllEffects(cfg, o, ds[..|ds| - 1], world)
        + if d.isPartition && !d.isMounted then MountEffects(cfg, d, o, world) else []
  }

  /**
   * The count never exceeds the number of devices tried, and equals it
   * when neither MkdirAll nor mount(8) fails anywhere: a failure does not
   * stop the batch.
   */
  lemma {:induction false} MountAllCountBounds(cfg: Config, ds: seq<Device>, world: World)
    requires forall d :: d in ds ==> HasDisplayName(d)
    ensures MountAllCount(cfg, ds, world) <= |Attempted(ds)|
    ensures world.mkdirFails == {} && world.mountFails == {} ==> MountAllCount(cfg, ds, world) == |Attempted(ds)|
    decreases |ds|
  {
    if ds != [] {
      var init := ds[..|ds| - 1];
      assert forall d :: d in init ==> d in ds;
      MountAllCountBounds(cfg, init, world);
    }
  }

  /**
   * pgmount -a: a failed scan is fatal (`ok` false, nothing done);
   * otherwise every unmounted partition is tried, failures included, and
   * the successes are counted.
   */
  method MountAll(cfg: Config, o: CliOptions, scan: Option<seq<Device>>, world: World) returns (ok: bool, count: nat, effects: seq<Effect>)
    requires scan.Some? ==> forall d :: d in scan.value ==> HasDisplayName(d)
    ensures ok <==> scan.Some?
    ensures scan.None? ==> count == 0 && effects == []
    ensures scan.Some? ==> count == MountAllCount(cfg, scan.value, world)
    ensures scan.Some? ==> effects == MountAllEffects(cfg, o, scan.value, world)
  {
    ok, count, effects := false, 0, [];
    if scan.None? {
      return;
    }
    ok := true;
    var ds := scan.value;
    for i := 0 to |ds|
      invariant forall d :: d in ds[..i] ==> HasDisplayName(d)
      invariant count == MountAllCount(cfg, ds[..i], world)
      invariant effects == MountAllEffects(cfg, o, ds[..i], world)
    {
      assert ds[..i + 1][..i] == ds[..i];
      assert ds[i] in ds;
      var d := ds[i];
      if d.isPartition && !d.isMounted {
        var _, ok, e := MountDevice(cfg, d, o, world);
        effects := effects + e;
        if ok {
          count := count + 1;
        }
      }
    }
    assert ds[..|ds|] == ds;
  }
}
