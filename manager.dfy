/**
 * Manager in device/device.go: Scan picks the scanner for the host
 * operating system and records every device it returns in a cache keyed by
 * device path; GetDevice and GetMountedDevices read that cache.
 */
module DeviceManager {
  import opened Wrappers
  import opened DeviceRecord
  import FreeBSD
  import Linux

  /** runtime.GOOS, as far as Scan distinguishes it. */
  datatype OS = FreeBSDHost | LinuxHost | OtherOS(name: string)

  /** What Scan returns: the scanner's list, or None for an error (an unsupported system included). */
  function ScanSpec(os: OS, host: Host): Option<seq<Device>> {
    match os
    case FreeBSDHost => FreeBSD.ScanFreeBSDSpec(host)
    case LinuxHost => Linux.ScanLinuxSpec(host)
    case OtherOS(_) => None
  }

  /** The cache after storing each device of `ds`, in order, under its path. */
  function CacheUpdate(cache: map<string, Device>, ds: seq<Device>): map<string, Device>
    decreases |ds|
  {
    if ds == [] then cache
    else
      var d := ds[|ds| - 1];
      CacheUpdate(cache, ds[..|ds| - 1])[d.path := d]
  }

  /** Storing keeps every old key and adds exactly the paths of the stored devices. */
  lemma {:induction false} CacheUpdateKeys(cache: map<string, Device>, ds: seq<Device>)
    ensures CacheUpdate(cache, ds).Keys == cache.Keys + set d | d in ds :: d.path
    decreases |ds|
  {
    if ds != [] {
      var init := ds[..|ds| - 1];
      CacheUpdateKeys(cache, init);
      assert ds == init + [ds[|ds| - 1]];
      assert (set d | d in ds :: d.path) == (set d | d in init :: d.path) + {ds[|ds| - 1].path};
    }
  }

  /** A path no stored device has keeps its old entry. */
  lemma {:induction false} CacheUpdateElsewhere(cache: map<string, Device>, ds: seq<Device>, p: string)
    requires forall d :: d in ds ==> d.path != p
    ensures p in CacheUpdate(cache, ds) <==> p in cache
    ensures p in cache ==> CacheUpdate(cache, ds)[p] == cache[p]
    decreases |ds|
  {
    if ds != [] {
      CacheUpdateElsewhere(cache, ds[..|ds| - 1], p);
    }
  }

  /** Under a path several devices share, the last of them is kept. */
  lemma {:induction false} CacheUpdateLastWins(cache: map<string, Device>, ds: seq<Device>, k: int)
    requires 0 <= k < |ds|
    requires forall j :: k < j < |ds| ==> ds[j].path != ds[k].path
    ensures ds[k].path in CacheUpdate(cache, ds) && CacheUpdate(cache, ds)[ds[k].path] == ds[k]
    decreases |ds|
  {
    if k < |ds| - 1 {
      var init := ds[..|ds| - 1];
      assert init[k] == ds[k];
      CacheUpdateLastWins(cache, init, k);
    }
  }

  /** Every entry of a cache is filed under its own path. */
  predicate KeyedByPath(cache: map<string, Device>) {
    forall p :: p in cache ==> cache[p].path == p
  }

  lemma {:induction false} CacheUpdateKeyedByPath(cache: map<string, Device>, ds: seq<Device>)
    requires KeyedByPath(cache)
    ensures KeyedByPath(CacheUpdate(cache, ds))
    decreases |ds|
  {
    if ds != [] {
      CacheUpdateKeyedByPath(cache, ds[..|ds| - 1]);
    }
  }

  class Manager {
    var devices: map<string, Device>

    ghost predicate Valid()
      reads this
    {
      KeyedByPath(devices)
    }

    constructor()
      ensures devices == map[] && Valid()
    {
      devices := map[];
    }

    /**
     * Scan: on success every returned device is stored under its path,
     * overwriting but never removing entries; on failure the cache is left
     * as it was.
     */
    method Scan(os: OS, host: Host) returns (r: Option<seq<Device>>)
      requires Valid()
      modifies this
      ensures Valid()
      ensures r == ScanSpec(os, host)
      ensures r.None? ==> devices == old(devices)
      ensures r.Some? ==> devices == CacheUpdate(old(devices), r.value)
    {
      match os {
        case FreeBSDHost => r := FreeBSD.ScanFreeBSD(host);
        case LinuxHost => r := Linux.ScanLinux(host);
        case OtherOS(_) => return None;
      }
      if r.None? {
        return;
      }
      var ds := r.value;
      for i := 0 to |ds|
        invariant devices == CacheUpdate(old(devices), ds[..i])
      {
        assert ds[..i + 1][..i] == ds[..i];
        devices := devices[ds[i].path := ds[i]];
      }
      assert ds[..|ds|] == ds;
      CacheUpdateKeyedByPath(old(devices), ds);
    }

    /** GetDevice: the cached device filed under `path`, if any. */
    function GetDevice(path: string): (r: Option<Device>)
      reads this
      ensures r.Some? <==> path in devices
      ensures Valid() && r.Some? ==> r.value.path == path
    {
      if path in devices then Some(devices[path]) else None
    }

    /** GetMountedDevices: the cached devices marked mounted, without order. */
    function GetMountedDevices(): (r: set<Device>)
      reads this
      ensures forall d :: d in r <==> d.isMounted && exists p :: p in devices && devices[p] == d
    {
      set p | p in devices && devices[p].isMounted :: devices[p]
    }
  }
}
