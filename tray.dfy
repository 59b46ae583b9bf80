/**
 * The tray icon of tray/tray.go: which scanned devices the menu shows, the
 * label and actions of each device item, auto-hide, and the Mount All /
 * Unmount All batches. The systray calls themselves are not modelled; the
 * menu is the list of device items, and what the icon asks of the outside
 * (callbacks, notifications, refresh requests) is appended to `events`.
 */
module Tray {
  import opened Text
  import opened Wrappers
  import opened DeviceRecord

  // ---------------------------------------------------------------------
  // Parent disk names

  /** A partition name splits at i: a 'p' or 's' after the first character, followed by a digit. */
  predicate SplitsAt(name: string, i: int) {
    0 < i && i + 1 < |name| && (name[i] == 'p' || name[i] == 's') && IsDigit(name[i + 1])
  }

  /** The name before the first split point at or after `from`, or "" when there is none. */
  function ParentFrom(name: string, from: nat): (r: string)
    ensures r != "" ==> exists i :: (from <= i < |name| && SplitsAt(name, i) && r == name[..i]
      && forall j :: from <= j < i ==> !SplitsAt(name, j))
    ensures r == "" <==> forall i :: from <= i < |name| ==> !SplitsAt(name, i)
    decreases |name| - from
  {
    if from >= |name| then ""
    else if SplitsAt(name, from) then name[..from]
    else ParentFrom(name, from + 1)
  }

  /** getParentDiskName: the prefix before the first split point, or "". */
  function ParentDiskName(name: string): (r: string)
    ensures r != "" ==> exists i :: (0 <= i < |name| && SplitsAt(name, i) && r == name[..i]
      && forall j :: 0 <= j < i ==> !SplitsAt(name, j))
    ensures r == "" <==> forall i :: 0 <= i < |name| ==> !SplitsAt(name, i)
  {
    ParentFrom(name, 0)
  }

  /** getParentDiskName as the source writes it, a scan from the left. */
  method GetParentDiskName(name: string) returns (r: string)
    ensures r == ParentDiskName(name)
  {
    var i := 0;
    while i < |name|
      invariant 0 <= i <= |name|
      invariant ParentFrom(name, i) == ParentFrom(name, 0)
    {
      if (name[i] == 'p' || name[i] == 's') && i > 0 {
        if i + 1 < |name| && '0' <= name[i + 1] <= '9' {
          return name[..i];
        }
      }
      i := i + 1;
    }
    return "";
  }

  /** The names the source's comment gives, and a Linux name it does not handle. */
  lemma ParentDiskNameExamples()
    ensures ParentDiskName("da0p1") == "da0"
    ensures ParentDiskName("ada0s1") == "ada0"
    ensures ParentDiskName("sda1") == ""
  {
    assert SplitsAt("da0p1", 3);
    assert !SplitsAt("da0p1", 1);
    assert SplitsAt("ada0s1", 4);
    assert !SplitsAt("sda1", 0);
    assert ParentFrom("sda1", 0) == ParentFrom("sda1", 1) == ParentFrom("sda1", 2);
  }

  // ---------------------------------------------------------------------
  // The display list

  predicate RemovablePartition(d: Device) {
    d.isPartition && d.isRemovable
  }

  /** The removable partitions of a scan, in scan order. */
  function Partitions(ds: seq<Device>): (r: seq<Device>)
    ensures forall d :: d in r ==> d in ds
    decreases |ds|
  {
    if ds == [] then []
    else Partitions(ds[..|ds| - 1]) + if RemovablePartition(ds[|ds| - 1]) then [ds[|ds| - 1]] else []
  }

  /** The parent disk names of the removable partitions of a scan. */
  function Parents(ds: seq<Device>): set<string>
    decreases |ds|
  {
    if ds == [] then {}
    else
      var d := ds[|ds| - 1];
      Parents(ds[..|ds| - 1]) + if RemovablePartition(d) && ParentDiskName(d.name) != "" then {ParentDiskName(d.name)} else {}
  }

  /** The removable whole disks of a scan whose name is not in `parents`, in scan order. */
  function RawDisks(ds: seq<Device>, parents: set<string>): (r: seq<Device>)
    ensures forall d :: d in r ==> d in ds
    decreases |ds|
  {
    if ds == [] then []
    else
      var d := ds[|ds| - 1];
      RawDisks(ds[..|ds| - 1], parents) + if !d.isPartition && d.isRemovable && d.name !in parents then [d] else []
  }

  /** The devices the tray lists: the removable partitions, then the removable disks none of them belongs to. */
  function DisplayList(ds: seq<Device>): (r: seq<Device>)
    ensures forall d :: d in r ==> d in ds
  {
    Partitions(ds) + RawDisks(ds, Parents(ds))
  }

  lemma {:induction false} PartitionsMembers(ds: seq<Device>)
    ensures forall d :: d in Partitions(ds) <==> d in ds && RemovablePartition(d)
    decreases |ds|
  {
    if ds != [] {
      PartitionsMembers(ds[..|ds| - 1]);
      assert ds == ds[..|ds| - 1] + [ds[|ds| - 1]];
    }
  }

  lemma {:induction false} RawDisksMembers(ds: seq<Device>, parents: set<string>)
    ensures forall d :: d in RawDisks(ds, parents) <==> d in ds && !d.isPartition && d.isRemovable && d.name !in parents
    decreases |ds|
  {
    if ds != [] {
      RawDisksMembers(ds[..|ds| - 1], parents);
      assert ds == ds[..|ds| - 1] + [ds[|ds| - 1]];
    }
  }

  lemma {:induction false} ParentsMembers(ds: seq<Device>)
    ensures forall p :: p in Parents(ds) <==>
      p != "" && exists d :: d in ds && RemovablePartition(d) && ParentDiskName(d.name) == p
    decreases |ds|
  {
    if ds != [] {
      ParentsMembers(ds[..|ds| - 1]);
      assert ds == ds[..|ds| - 1] + [ds[|ds| - 1]];
    }
  }

  /**
   * The tray lists exactly the removable partitions and the removable whole
   * disks that no listed partition names as its parent; nothing that is not
   * removable ever appears.
   */
  lemma DisplayListMembers(ds: seq<Device>)
    ensures forall d :: d in DisplayList(ds) <==>
      d in ds && d.isRemovable && (d.isPartition || d.name !in Parents(ds))
  {
    PartitionsMembers(ds);
    RawDisksMembers(ds, Parents(ds));
  }

  /** A whole disk is hidden once a removable partition of the scan names it as its parent. */
  lemma PartitionedDiskHidden(ds: seq<Device>, disk: Device, part: Device)
    requires part in ds && RemovablePartition(part) && ParentDiskName(part.name) == disk.name
    requires disk.name != "" && !disk.isPartition
    ensures disk !in DisplayList(ds)
  {
    DisplayListMembers(ds);
    ParentsMembers(ds);
  }

  /**
   * Linux partition names have no 'p' or 's' split point, so a removable
   * Linux disk is listed as a raw disk beside its own partition.
   */
  lemma LinuxDiskListedBesidePartition(disk: Device, part: Device)
    requires disk.name == "sda" && part.name == "sda1"
    requires disk.isRemovable && !disk.isPartition && RemovablePartition(part)
    ensures DisplayList([disk, part]) == [part, disk]
  {
    ParentDiskNameExamples();
    var ds := [disk, part];
    assert ds[..1] == [disk];
    assert [disk][..0] == [];
    assert Parents([disk]) == {};
    assert Parents(ds) == {};
    assert Partitions([disk]) == [];
    assert RawDisks([disk], {}) == [disk];
    assert Partitions(ds) == [part];
    assert RawDisks(ds, {}) == [disk];
  }

  /** Every listed partition comes before every listed whole disk. */
  lemma PartitionsFirst(ds: seq<Device>)
    ensures forall i, j :: 0 <= i < j < |DisplayList(ds)| && !DisplayList(ds)[i].isPartition ==>
      !DisplayList(ds)[j].isPartition
  {
    var ps := Partitions(ds);
    var rs := RawDisks(ds, Parents(ds));
    PartitionsMembers(ds);
    RawDisksMembers(ds, Parents(ds));
    forall k | 0 <= k < |ps|
      ensures ps[k].isPartition
    {
      assert ps[k] in Partitions(ds);
    }
    forall k | 0 <= k < |rs|
      ensures !rs[k].isPartition
    {
      assert rs[k] in RawDisks(ds, Parents(ds));
    }
    forall i, j | 0 <= i < j < |DisplayList(ds)| && !DisplayList(ds)[i].isPartition
      ensures !DisplayList(ds)[j].isPartition
    {
      assert DisplayList(ds) == ps + rs;
    }
  }

  // ---------------------------------------------------------------------
  // Device items

  datatype Action = OpenItem | UnmountItem | EjectItem | MountItem

  /** A device item: its text, its tooltip (the device path) and the actions under it. */
  datatype MenuItem = MenuItem(text: string, path: string, actions: seq<Action>)

  const MountedMark: string := " ●"
  const RawDiskMark: string := " [Raw Disk]"

  /** The marks after the display name in an item label. */
  function Marks(d: Device): string {
    (if d.isMounted then MountedMark else "") + (if !d.isPartition then RawDiskMark else "")
  }

  /** The actions a device item offers; a whole disk only has disabled information entries. */
  function ItemActions(d: Device): seq<Action> {
    if !d.isPartition then []
    else if d.isMounted then [OpenItem, UnmountItem] + (if d.isRemovable then [EjectItem] else [])
    else [MountItem]
  }

  /**
   * Mount is offered exactly for unmounted partitions, Open and Unmount
   * exactly for mounted ones, and Eject for mounted removable ones.
   */
  lemma ActionsByState(d: Device)
    ensures MountItem in ItemActions(d) <==> d.isPartition && !d.isMounted
    ensures UnmountItem in ItemActions(d) <==> d.isPartition && d.isMounted
    ensures OpenItem in ItemActions(d) <==> d.isPartition && d.isMounted
    ensures EjectItem in ItemActions(d) <==> d.isPartition && d.isMounted && d.isRemovable
  {
  }

  /** Every mounted partition the tray lists can be ejected, since only removable devices are listed. */
  lemma ListedMountedPartitionsEject(ds: seq<Device>, d: Device)
    requires d in DisplayList(ds) && d.isPartition && d.isMounted
    ensures EjectItem in ItemActions(d)
  {
    DisplayListMembers(ds);
  }

  /** addDeviceMenuItems for one device: the label is built by appending the marks. */
  method BuildItem(d: Device) returns (item: MenuItem)
    requires HasDisplayName(d)
    ensures item.text == GetDisplayName(d) + Marks(d)
    ensures item.path == d.path && item.actions == ItemActions(d)
  {
    var displayName := GetDisplayName(d);
    if d.isMounted {
      displayName := displayName + MountedMark;
    }
    if !d.isPartition {
      displayName := displayName + RawDiskMark;
    }
    var actions: seq<Action>;
    if !d.isPartition {
      actions := [];
    } else if d.isMounted {
      actions := [OpenItem, UnmountItem];
      if d.isRemovable {
        actions := actions + [EjectItem];
      }
    } else {
      actions := [MountItem];
    }
    item := MenuItem(displayName, d.path, actions);
  }

  /**
   * Two items for devices with the same display name have the same label
   * only when the devices agree on being mounted and on being a partition.
   */
  lemma MarksDistinguishState(d1: Device, d2: Device)
    requires |Marks(d1)| == |Marks(d2)|
    ensures d1.isMounted == d2.isMounted && d1.isPartition == d2.isPartition
  {
    assert |MountedMark| == 2 && |RawDiskMark| == 11;
  }

  /** The items of a display list, in order. */
  function Items(ds: seq<Device>): (r: seq<MenuItem>)
    requires forall d :: d in ds ==> HasDisplayName(d)
    ensures |r| == |ds|
    ensures forall i :: 0 <= i < |ds| ==>
      r[i] == MenuItem(GetDisplayName(ds[i]) + Marks(ds[i]), ds[i].path, ItemActions(ds[i]))
    decreases |ds|
  {
    if ds == [] then []
    else Items(ds[..|ds| - 1]) + [MenuItem(GetDisplayName(ds[|ds| - 1]) + Marks(ds[|ds| - 1]), ds[|ds| - 1].path, ItemActions(ds[|ds| - 1]))]
  }

  // ---------------------------------------------------------------------
  // Batch actions

  /** A device Mount All (wantMounted false) or Unmount All (true) acts on. */
  predicate Candidate(d: Device, wantMounted: bool) {
    d.isPartition && d.isMounted == wantMounted && d.isRemovable
  }

  function Candidates(ds: seq<Device>, wantMounted: bool): seq<Device>
    decreases |ds|
  {
    if ds == [] then []
    else Candidates(ds[..|ds| - 1], wantMounted) + if Candidate(ds[|ds| - 1], wantMounted) then [ds[|ds| - 1]] else []
  }

  /** The number of candidates whose callback succeeds; none without a callback. */
  function BatchCount(ds: seq<Device>, wantMounted: bool, hasCallback: bool, fails: set<string>): nat
    decreases |ds|
  {
    if ds == [] then 0
    else
      var d := ds[|ds| - 1];
      BatchCount(ds[..|ds| - 1], wantMounted, hasCallback, fails)
        + if Candidate(d, wantMounted) && hasCallback && d.path !in fails then 1 else 0
  }

  lemma {:induction false} BatchCountBounds(ds: seq<Device>, wantMounted: bool, hasCallback: bool, fails: set<string>)
    ensures !hasCallback ==> BatchCount(ds, wantMounted, hasCallback, fails) == 0
    ensures BatchCount(ds, wantMounted, hasCallback, fails) <= |Candidates(ds, wantMounted)|
    ensures hasCallback && (forall d :: d in ds ==> d.path !in fails) ==>
      BatchCount(ds, wantMounted, hasCallback, fails) == |Candidates(ds, wantMounted)|
    decreases |ds|
  {
    if ds != [] {
      var init := ds[..|ds| - 1];
      BatchCountBounds(init, wantMounted, hasCallback, fails);
      assert forall d :: d in init ==> d in ds;
      assert ds[|ds| - 1] in ds;
    }
  }

  /** What the tray does outside itself. */
  datatype TrayEvent =
    | MountCallback(path: string)
    | UnmountCallback(path: string)
    | Shown(title: string, message: string)   // showNotification, via notify-send
    | UpdateRequested                          // UpdateDevices

  /** The callback runs of a batch, one per candidate, when a callback is set. */
  function CallbackRuns(ds: seq<Device>, wantMounted: bool, hasCallback: bool): seq<TrayEvent>
    decreases |ds|
  {
    if ds == [] then []
    else
      var d := ds[|ds| - 1];
      CallbackRuns(ds[..|ds| - 1], wantMounted, hasCallback)
        + if Candidate(d, wantMounted) && hasCallback then [if wantMounted then UnmountCallback(d.path) else MountCallback(d.path)] else []
  }

  /** The summary notification of a batch, only when something succeeded. */
  function BatchSummary(wantMounted: bool, count: nat): seq<TrayEvent> {
    if count == 0 then []
    else if wantMounted then [Shown("Unmount All", "Unmounted " + NatToString(count) + " device(s)")]
    else [Shown("Mount All", "Mounted " + NatToString(count) + " device(s)")]
  }

  // ---------------------------------------------------------------------
  // The icon

  class Icon {
    const autoHide: bool
    var visible: bool
    var menu: seq<MenuItem>
    var events: seq<TrayEvent>

    /**
     * New: the icon starts visible with no menu, and New returns only after
     * onReady has run the first rebuildMenu over `scan`.
     */
    constructor(autoHide: bool, scan: Option<seq<Device>>)
      requires scan.Some? ==> forall d :: d in scan.value ==> HasDisplayName(d)
      ensures this.autoHide == autoHide && events == []
      ensures scan.None? ==> visible && menu == []
      ensures scan.Some? ==> menu == Items(DisplayList(scan.value))
      ensures scan.Some? ==> visible == (!autoHide || |DisplayList(scan.value)| > 0)
    {
      this.autoHide := autoHide;
      visible := true;
      menu := [];
      events := [];
      new;
      RebuildMenu(scan);
    }

    method Show()
      modifies this
      ensures visible && menu == old(menu) && events == old(events)
    {
      visible := true;
    }

    method Hide()
      modifies this
      ensures !visible && menu == old(menu) && events == old(events)
    {
      visible := false;
    }

    /** The two passes of rebuildMenu that choose the devices to show. */
    static method SelectDisplay(ds: seq<Device>) returns (display: seq<Device>)
      ensures display == DisplayList(ds)
    {
      display := [];
      var hasPartitions: set<string> := {};
      for i := 0 to |ds|
        invariant display == Partitions(ds[..i])
        invariant hasPartitions == Parents(ds[..i])
      {
        assert ds[..i + 1][..i] == ds[..i];
        var d := ds[i];
        if d.isPartition && d.isRemovable {
          display := display + [d];
          var parent := GetParentDiskName(d.name);
          if parent != "" {
            hasPartitions := hasPartitions + {parent};
          }
        }
      }
      assert ds[..|ds|] == ds;
      for i := 0 to |ds|
        invariant display == Partitions(ds) + RawDisks(ds[..i], hasPartitions)
      {
        assert ds[..i + 1][..i] == ds[..i];
        var d := ds[i];
        if !d.isPartition && d.isRemovable {
          if d.name !in hasPartitions {
            display := display + [d];
          }
        }
      }
      assert ds[..|ds|] == ds;
    }

    /** addDeviceMenuItems: one item per displayed device, in order. */
    static method BuildItems(display: seq<Device>) returns (items: seq<MenuItem>)
      requires forall d :: d in display ==> HasDisplayName(d)
      ensures items == Items(display)
    {
      items := [];
      for i := 0 to |display|
        invariant items == Items(display[..i])
      {
        assert display[..i + 1][..i] == display[..i];
        assert display[i] in display;
        var item := BuildItem(display[i]);
        items := items + [item];
      }
      assert display[..|display|] == display;
    }

    /**
     * rebuildMenu: a failed scan leaves the menu as it was; otherwise the
     * menu lists the display list's items, and with auto-hide the icon is
     * visible exactly when that list is non-empty.
     */
    method RebuildMenu(scan: Option<seq<Device>>)
      requires scan.Some? ==> forall d :: d in scan.value ==> HasDisplayName(d)
      modifies this
      ensures scan.None? ==> menu == old(menu) && visible == old(visible)
      ensures scan.Some? ==> menu == Items(DisplayList(scan.value))
      ensures scan.Some? ==> visible == if autoHide then |DisplayList(scan.value)| > 0 else old(visible)
      ensures events == old(events)
    {
      if scan.None? {
        return;
      }
      var display := SelectDisplay(scan.value);
      DisplayListMembers(scan.value);
      menu := BuildItems(display);
      if autoHide {
        visible := |display| > 0;
      }
    }

    /**
     * onMountAll (wantMounted false) and onUnmountAll (true): a failed scan
     * does nothing; otherwise the callback runs for each candidate, the
     * successes are counted, a refresh is requested and a summary is shown
     * when the count is positive. `fails` holds the paths the callback
     * refuses.
     */
    method OnBatch(scan: Option<seq<Device>>, wantMounted: bool, hasCallback: bool, fails: set<string>)
      returns (count: nat)
      modifies this
      ensures scan.None? ==> count == 0 && events == old(events)
      ensures scan.Some? ==> count == BatchCount(scan.value, wantMounted, hasCallback, fails)
      ensures scan.Some? ==>
        events == old(events) + CallbackRuns(scan.value, wantMounted, hasCallback)
                  + [UpdateRequested] + BatchSummary(wantMounted, count)
      ensures menu == old(menu) && visible == old(visible)
    {
      count := 0;
      if scan.None? {
        return;
      }
      var ds := scan.value;
      for i := 0 to |ds|
        invariant count == BatchCount(ds[..i], wantMounted, hasCallback, fails)
        invariant events == old(events) + CallbackRuns(ds[..i], wantMounted, hasCallback)
        invariant menu == old(menu) && visible == old(visible)
      {
        assert ds[..i + 1][..i] == ds[..i];
        var d := ds[i];
        ghost var run := if Candidate(d, wantMounted) && hasCallback then [if wantMounted then UnmountCallback(d.path) else MountCallback(d.path)] else [];
        assert CallbackRuns(ds[..i + 1], wantMounted, hasCallback) == CallbackRuns(ds[..i], wantMounted, hasCallback) + run;
        assert old(events) + CallbackRuns(ds[..i + 1], wantMounted, hasCallback) == events + run;
        if d.isPartition && d.isMounted == wantMounted && d.isRemovable {
          if hasCallback {
            events := events + [if wantMounted then UnmountCallback(d.path) else MountCallback(d.path)];
            if d.path !in fails {
              count := count + 1;
            }
          }
        }
      }
      assert ds[..|ds|] == ds;
      events := events + [UpdateRequested];
      if count > 0 {
        events := events + BatchSummary(wantMounted, count);
      }
    }
  }
}
