# pgmount in Dafny

pgmount is an automounter for removable storage on FreeBSD and Linux. It has
four front ends: the daemon `pgmountd`, its tray icon, and the commands
`pgmount`, `pgumount` and `pginfo`. This project models its deterministic
core and proves properties of that model:

- **Device discovery.** The line parsers turn tool output into device records:
  - `geom disk list` stanzas;
  - `gpart show -p` rows;
  - the hand-rolled `lsblk -J` line scanner;
  - lsblk size strings;
  - `blkid -o export`;
  - `file -s` classification;
  - `glabel status` and `dumpe2fs -h`;
  - `/etc/mtab` and `mount` output.

  Discovery also covers the removability rule, the display name, the mount
  directory, and the device manager's cache.
- **The daemon's bookkeeping.**
  - The `mounted` table.
  - The poll loop's set of known paths.
  - Device arrival and removal.
  - Mount, unmount and GELI unlock.
  - The mount(8) argument list.
  - Event-hook placeholder substitution.
- **Policy lookup** in the configuration:
  - the first-match search over device entries;
  - the ignore, automount and mount-option decisions;
  - the default table.
- **The front ends.**
  - The tray's display list, item labels, actions and batch counts.
  - Target lookup in pgmount and pgumount.
  - The `-o`/`-t` overrides.
  - The detach heuristic and its camcontrol-then-usbconfig fallback.
  - The `-a` batches.
  - pginfo's row selection and columns.
  - The start-up flag precedence and configuration source.
  - The notify-send wrapper with its `initialized` flag.

Outside tools and files become inputs:

- A `Host` value holds what each discovery tool prints, or nothing when the tool fails.
- A `World` value says which mkdir, mount, umount, geli, camcontrol and usbconfig runs fail, and which passwords can be obtained.
- What the code does to the outside world is returned, or appended to an `effects` field, as a sequence of `Effect` values:
  - commands run, with their arguments and standard input;
  - directories made or removed;
  - notifications, hooks and file-manager launches.

## Form of the model

- A device record (`DeviceRecord.Device`) is a value. Operations that set its fields in Go return the updated record.
- The objects whose fields the Go code updates are classes:
  - the device manager's cache (`DeviceManager.Manager`);
  - the daemon (`AutomountDaemon.Daemon`);
  - the tray icon (`Tray.Icon`);
  - the notify package's flag (`Notify.Notifier`).
- Every Go loop is a Dafny method with a loop, proved equal to a specification function. Most specification functions are folds over the input prefix. The daemon's removal loop runs over a Go map in no fixed order. Its table is a map comprehension (`AfterRemoved`), and its effects are a fold over an order that the caller supplies. Each daemon operation's effects equal a specification function of the configuration, the device and the `World` (`MountEffects`, `UnmountEffects`, `AddedEffects`, `RemovedEffects`), and lemmas say what those sequences contain. Lemmas about those functions state what the parser, the policy or the daemon promises.

Modules:

| file | module | what it models |
|---|---|---|
| text.dfy | Wrappers, Text | Option and Result; the Go string functions used (Fields, Split, Index, TrimSpace, ReplaceAll, ...) |
| paths.dfy | Paths | filepath.Join and its cleaning |
| device.dfy | DeviceRecord | the Device record, host tool outputs, GetDisplayName, GetMountDirectory |
| probe.dfy | Probe | detectFilesystem, extractMetadata, detectFilesystemLinux, checkMountStatus, parseMountOutput |
| freebsd.dfy | FreeBSD | parseGeomDiskList, isRemovableDevice, getPartitions, scanFreeBSD |
| linux.dfy | Linux | parseLinuxSize, parseLsblkJSON, scanLinux |
| manager.dfy | DeviceManager | Manager, Scan, GetDevice, GetMountedDevices |
| config.dfy | Config | Default, GetDeviceConfig, ShouldIgnoreDevice, ShouldAutomountDevice, GetMountOptions |
| commands.dfy | Commands | effects, tool outcomes, mount(8)/umount(8) argument lists |
| daemon.dfy | AutomountDaemon | the Daemon class |
| tray.dfy | Tray | getParentDiskName, rebuildMenu, addDeviceMenuItems, onMountAll/onUnmountAll |
| notify.dfy | Notify | Init, Close, Send, SendWithIcon |
| startup.dfy | Startup | loadConfig, applyFlags (main.go) |
| pgmount.dfy | PgMount | cmd/pgmount |
| pgumount.dfy | PgUmount | cmd/pgumount |
| pginfo.dfy | PgInfo | cmd/pginfo |

## A label can leave the mount base

getMountDirectory sanitises the display name by replacing only `/` and space with `_` (device/device.go:699-701). Every other character is kept, `.` included, before `filepath.Join` cleans the result. So a device labelled `..` gets the mount directory `/` when the base is `/media`. `DeviceRecord.SanitizeName` states what the sanitisation keeps, and `DeviceRecord.DotDotLabelMountsOnRoot` proves the consequence.

## Model

| member | source | states |
|---|---|---|
| DeviceRecord.NewDevice | device/device.go:459-463 | a fresh record carries the given name and the node "/dev/"+name and is unmounted, not a partition, not removable, size 0 |
| DeviceRecord.GetDisplayName | device/device.go:686-694 | the label when non-empty; else the first 8 UUID characters and "..."; else the device name |
| DeviceRecord.SanitizeName | device/device.go:697-703 | same length; each '/' and ' ' becomes '_' and every other character, '.' included, is kept |
| DeviceRecord.MountDirectoryUnderBase | device/device.go:697-703 | for a clean base and a display name other than "", "." and "..", the mount directory is base + "/" + the sanitized name, a leaf with no '/' or ' ' |
| DeviceRecord.DotDotLabelMountsOnRoot | device/device.go:697-703 | a device labelled ".." under a one-level base such as "/media" gets "/" as its mount directory |
| Paths.JoinPlainName | device/device.go:702 | filepath.Join of a clean base and a plain name is base + "/" + name |
| Paths.JoinDotDotLeavesBase | device/device.go:702 | filepath.Join("/dir", "..") is "/" |
| Probe.ClassifyFilesystem | device/device.go:542-558 | the first of ext4, ext3, ext2, FAT, NTFS, UFS, ZFS found in the `file -s` text decides the type (FAT gives "msdosfs"); no marker keeps the old type |
| Probe.GlabelScanEffect | device/device.go:572-586 | the glabel pass changes only the label, and changes it only when some line mentions the device name |
| Probe.DumpeStepEffect | device/device.go:595-603 | one dumpe2fs line changes only the label and the UUID; a volume name of "<none>" or "" never becomes the label |
| Probe.DumpeScanEffect | device/device.go:588-606 | the same holds for the whole dumpe2fs output |
| Probe.DumpeLastUuidWins | device/device.go:596-597 | the UUID is the trimmed value of the last "Filesystem UUID:" line |
| Probe.ExtractMetadata | device/device.go:571-607 | the method's result is the specification: glabel first, then dumpe2fs only for an "ext" type and only when the tool succeeds |
| Probe.ReadGlabel | device/device.go:576-585 | the glabel loop computes the glabel fold |
| Probe.ReadDumpe | device/device.go:593-604 | the dumpe2fs loop computes the dumpe2fs fold |
| Probe.ReadDumpeLine | device/device.go:595-603 | one dumpe2fs line is one step of the fold |
| Probe.ExtractMetadataEffect | device/device.go:571-607 | extractMetadata changes only the label and the UUID |
| Probe.DetectFilesystem | device/device.go:534-568 | the method's result is the specification: classification, GELI flag, then extractMetadata, all only when `file -s` succeeds |
| Probe.DetectFilesystemEffect | device/device.go:534-568 | only type, encryption flag, label and UUID change; encrypted exactly when it was or `file -s` mentions "GELI"; a failed `file -s` changes nothing |
| Probe.BlkidLastTypeWins | device/device.go:232-254 | the type is the value of the last "TYPE=" line of blkid's export output |
| Probe.DetectFilesystemLinux | device/device.go:232-254 | blkid's TYPE/LABEL/UUID lines are applied in order, and `file -s` is consulted only when no type was found |
| Probe.MtabScanEffect | device/device.go:624-634 | the mtab pass either leaves the record alone or sets a mount point and marks it mounted, nothing else |
| Probe.MtabNoEntry | device/device.go:627 | without a line starting with the path and a space, the record is unchanged |
| Probe.MtabLastEntryWins | device/device.go:627-632 | the mount point is the second field of the last matching mtab line, and the device is marked mounted |
| Probe.MountOutputScanEffect | device/device.go:638-654 | the `mount` output pass either leaves the record alone or sets a mount point and marks it mounted |
| Probe.MountOutputNoLine | device/device.go:642-645 | without a line containing the path and " on ", the record is unchanged |
| Probe.MountOutputStepLine | device/device.go:642-651 | a line containing the path and " on " sets the mount point to the trimmed text between " on " and " ("; other lines change nothing |
| Probe.MountOutputLastLineWins | device/device.go:642-651 | the last matching line decides the mount point |
| Probe.ParseMountOutput | device/device.go:638-654 | the loop computes the `mount` output fold for the device's path |
| Probe.CheckMountStatus | device/device.go:610-635 | /etc/mtab when it can be read; else `mount` output; else no change |
| Probe.CheckMountStatusEffect | device/device.go:610-635 | checking the mount status at most sets the mount point and the mounted flag |
| FreeBSD.ReadGeomLine | device/device.go:453-471 | one line of parseGeomDiskList's loop is one step of the geom fold |
| FreeBSD.ReadMediasize | device/device.go:465-470 | a "Mediasize:" line sets the size to its second field when that is a 64-bit number, else leaves it |
| FreeBSD.ParseGeomDiskList | device/device.go:447-479 | the loop's result is the geom fold of the output's lines |
| FreeBSD.GeomHeaderShape | device/device.go:455-463 | a "Geom name:" line closes the open disk and opens NewDevice(trimmed remainder) |
| FreeBSD.GeomMediasizeShape | device/device.go:464-470 | a "Mediasize:" line keeps the completed disks and the open disk's name and shape |
| FreeBSD.GeomMediasizeNames | device/device.go:464-470 | a "Mediasize:" line adds no name and keeps every record a geom disk |
| FreeBSD.GeomStepShape | device/device.go:452-472 | each line adds exactly the name of its "Geom name:" header, if any, to the list of names |
| FreeBSD.GeomFoldShape | device/device.go:447-479 | the disks read are one per header line, in input order, each a whole disk with path "/dev/"+name |
| FreeBSD.ParseGeomDiskListShape | device/device.go:447-479 | the same for parseGeomDiskList's output: names are the header names in order, lines before the first header are ignored |
| FreeBSD.IsRemovableDevice | device/device.go:657-683 | a "da" or "umass" name is removable without consulting camcontrol; any other name only when a devlist line names it and mentions USB or mass storage |
| FreeBSD.FirstWithPrefix | device/device.go:502-508 | the first field from index i on that starts with the prefix, or none when no such field exists |
| FreeBSD.PartitionRow | device/device.go:495-508 | an accepted row names a non-empty partition whose name starts with the disk name |
| FreeBSD.FindPartitionName | device/device.go:502-508 | the search yields the first field from the fourth on starting with the disk name, else "" |
| FreeBSD.GetPartitions | device/device.go:482-531 | the loop's result is the partition fold; a failing gpart gives no partitions |
| FreeBSD.PartitionLine | device/device.go:495-525 | one gpart row contributes the probed partition it names, or nothing |
| FreeBSD.ProbePartitionShape | device/device.go:510-524 | a probed partition keeps its name and path and is a removable partition |
| FreeBSD.PartitionsFoldShape | device/device.go:482-531 | every partition found is a removable partition named after the disk with path "/dev/"+name |
| FreeBSD.PartitionsShape | device/device.go:482-531 | the same for getPartitions' whole result |
| FreeBSD.ScanDisk | device/device.go:85-98 | one disk of scanFreeBSD contributes itself, marked removable, and its partitions when removable, else nothing |
| FreeBSD.ScanFreeBSD | device/device.go:71-102 | the loop's result is the disks fold; a failing `geom disk list` is an error |
| FreeBSD.DiskEntriesShape | device/device.go:85-98 | one disk's entries are all removable, and the disk is the only whole disk among them |
| FreeBSD.DisksFoldShape | device/device.go:85-98 | every entry is removable and the whole disks are exactly the removable disks, in order |
| FreeBSD.ScanFreeBSDShape | device/device.go:71-102 | a successful FreeBSD scan keeps a disk only when removable, marked removable, and lists kept disks in geom order |
| Linux.ParseLinuxSize | device/device.go:389-427 | an empty or "null" size (after trimming) is an error; a parsed size fits in 64 bits |
| Linux.ParseByteCount | device/device.go:396-398 | an all-digit string below 2^64 parses to its own value |
| Linux.ParseWithUnit | device/device.go:404-420 | an integer followed by K/M/G/T in either case is multiplied by 1024, 1024², 1024³ or 1024⁴ |
| Linux.ParseRejectsJunk | device/device.go:391-427 | without a unit letter, a character no number can hold gives an error |
| Linux.PresentValue | device/device.go:299-358 | a value is used only when it is neither empty nor "null" |
| Linux.ReadType | device/device.go:285-289 | "type" with "disk" clears, with "part" sets the partition flag |
| Linux.ReadRemovable | device/device.go:291-297 | "rm" or "hotplug" with "1" sets the removable flag |
| Linux.ReadMountpoint | device/device.go:299-313 | a present mountpoint sets the mount point and the mounted flag |
| Linux.ReadFstype | device/device.go:315-328 | a present fstype sets the type |
| Linux.ReadLabel | device/device.go:330-343 | a present label sets the label |
| Linux.ReadUuid | device/device.go:345-358 | a present uuid sets the UUID |
| Linux.ReadSize | device/device.go:360-373 | only the size field can change; a quoted value that parses to a byte count becomes the size, and anything else leaves the record unchanged |
| Linux.ApplyLsblkFields | device/device.go:284-373 | the field updates of one line, in the Go order |
| Linux.ReadStart | device/device.go:268-282 | a line with a quoted "name" starts a fresh record, discarding the open one |
| Linux.ReadLsblkLine | device/device.go:265-382 | one line of parseLsblkJSON's loop is one step of the lsblk fold |
| Linux.ParseLsblkJSON | device/device.go:257-386 | the loop's result is the lsblk fold of the output's lines |
| Linux.TypeKeepsRecord | device/device.go:285-289 | the type update keeps a well-formed record and its name |
| Linux.RemovableKeepsRecord | device/device.go:291-297 | the removable update keeps a well-formed record and its name |
| Linux.MountpointKeepsRecord | device/device.go:299-313 | the mountpoint update keeps mounted exactly when a mount point is set |
| Linux.FstypeKeepsRecord | device/device.go:315-328 | the fstype update never stores "null" |
| Linux.LabelKeepsRecord | device/device.go:330-343 | the label update never stores "null" |
| Linux.UuidKeepsRecord | device/device.go:345-358 | the uuid update never stores "null" |
| Linux.SizeKeepsRecord | device/device.go:360-373 | the size update keeps the size below 2^64 |
| Linux.ApplyKeepsRecord | device/device.go:284-373 | one line's updates keep a well-formed record and its name |
| Linux.LsblkStepKeepsRecords | device/device.go:265-382 | every emitted record is well formed and named |
| Linux.LsblkFoldRecords | device/device.go:257-386 | every record lsblk parsing emits has path "/dev/"+name, a non-empty name, mounted iff a mount point, no "null" field, a 64-bit size |
| Linux.LsblkStepNoClose | device/device.go:375-381 | a line without "}", or with "},", emits nothing |
| Linux.LsblkStepClose | device/device.go:375-381 | a closing line ends the open record and emits at most that one record |
| Linux.LsblkStepNamed | device/device.go:268-381 | a name line starts that device; on a closing line it is emitted exactly when the name is non-empty |
| Linux.RemovableOnlyMembers | device/device.go:119-124 | the filter keeps exactly the removable records |
| Linux.ScanLinux | device/device.go:105-127 | the loop's result is the removable records of lsblk's output; the fallback answers when lsblk fails |
| Linux.FilterRemovable | device/device.go:119-124 | the filter loop keeps the removable records in order |
| Linux.ScanLinuxShape | device/device.go:105-127 | a successful lsblk scan yields exactly its removable records, each well formed |
| DeviceManager.CacheUpdateKeys | device/device.go:62-65 | storing keeps every old key and adds exactly the stored devices' paths |
| DeviceManager.CacheUpdateElsewhere | device/device.go:62-65 | an entry no stored device maps to is untouched |
| DeviceManager.CacheUpdateLastWins | device/device.go:62-65 | under a shared path, the last stored device wins |
| DeviceManager.CacheUpdateKeyedByPath | device/device.go:62-65 | storing keeps every entry filed under its own path |
| DeviceManager.Manager.constructor | device/device.go:37-41 | the cache starts empty |
| DeviceManager.Manager.Scan | device/device.go:44-68 | the result is the platform scan; on error the cache is unchanged, otherwise every returned record is stored under its path |
| DeviceManager.Manager.GetDevice | device/device.go:430-433 | present exactly when the path is cached, and then the record filed under it |
| DeviceManager.Manager.GetMountedDevices | device/device.go:436-444 | exactly the cached records marked mounted, as a set |
| Config.Default | config/config.go:69-113 | automount on, base "/media", notifications on, GELI on, tray off with auto-hide, no device entries or hooks, defaults for vfat/ntfs/ext2/ext3/ext4/ufs/zfs/msdos only |
| Config.FirstMatchFrom | config/config.go:145-159 | the first entry from `from` on that matches, or none when none does |
| Config.GetDeviceConfig | config/config.go:145-159 | the first matching entry in list order, or none exactly when no entry matches |
| Config.EmptyEntryNeverMatches | config/config.go:150-156 | an entry with no identifier matches nothing |
| Config.ShouldIgnoreDevice | config/config.go:162-168 | true exactly when the first matching entry says ignore |
| Config.ShouldAutomountDevice | config/config.go:171-177 | the first match's explicit setting, else the global setting, also when nothing matches |
| Config.GetMountOptions | config/config.go:180-193 | the first match's own options when non-empty, unmerged; else the defaults for the type; else none |
| Config.DefaultFatHasNoOptions | config/config.go:69-104 | with the default table, a partition typed "msdosfs" gets no options |
| Config.LookupExamples | config/config.go:145-159 | lookup by label and by UUID finds the entry; an unknown label finds none |
| Config.AutomountExamples | config/config.go:171-177 | an explicit false or true wins; an unknown device follows the global setting |
| Commands.BuildMountArgs | daemon/daemon.go:223-230 | the argument list is "-o" and the joined options (only when there are options), "-t" and the type (only when neither empty nor "auto"), then path and mount point |
| Commands.MountArgsRoundTrip | daemon/daemon.go:223-230 | mount(8) reads back the joined options, the explicit type, the device and the mount point |
| Commands.UnmountArgsRoundTrip | cmd/pgumount/main.go:102-108 | umount(8) reads back the force flag and the mount point |
| AutomountDaemon.NoBraceNoPlaceholder | daemon/daemon.go:375-378 | text with no '{' holds no placeholder |
| AutomountDaemon.HookWithoutPlaceholders | daemon/daemon.go:373-378 | a hook without braces runs unchanged |
| AutomountDaemon.HookRewritesInsertedText | daemon/daemon.go:375-378 | text inserted for {device} is itself rewritten: a path of "{label}" becomes the label |
| AutomountDaemon.GeliCommand | daemon/daemon.go:307-329 | nothing when GELI is off or no password is obtained; "attach -k keyfile path" when a keyfile is registered for the UUID; else "attach path" with the password and newline on stdin |
| AutomountDaemon.PathSetMembers | daemon/daemon.go:116-120 | the scanned path set holds exactly the paths of the scanned devices |
| AutomountDaemon.NewPathsOncePerPath | daemon/daemon.go:118-127 | the added paths are exactly the scanned paths not known before, each once |
| AutomountDaemon.Daemon.constructor | daemon/daemon.go:30-38 | nothing mounted, nothing known, nothing done |
| AutomountDaemon.Daemon.SendNotification | daemon/daemon.go:250-253 | a notification only when notifications are on and its time is positive |
| AutomountDaemon.Daemon.ExecuteEventHook | daemon/daemon.go:372-389 | no hook for the event: nothing; otherwise one hook run with the four placeholders replaced in order |
| AutomountDaemon.Daemon.UnlockDevice | daemon/daemon.go:306-347 | succeeds exactly when a geli command is chosen and succeeds; only then is the device marked unlocked; the effects are the geli run, then the "Device Unlocked" notification on success |
| AutomountDaemon.Daemon.MountUnlocked | daemon/daemon.go:211-246 | success exactly when mkdir and mount succeed; only then is the device marked mounted and recorded; the effects are exactly mkdir, then mount(8) when mkdir succeeded, then the announcement when mount succeeded |
| AutomountDaemon.Daemon.RunMount | daemon/daemon.go:219-238 | one mount(8) run with the configured options and the device's type |
| AutomountDaemon.Daemon.Record | daemon/daemon.go:243-245 | the device is filed under its path, keeping the table well formed |
| AutomountDaemon.Daemon.AnnounceMount | daemon/daemon.go:249-261 | notification, device_mounted hook, then the file manager when configured |
| AutomountDaemon.Daemon.MountDevice | daemon/daemon.go:199-264 | a mounted device is refused with no effect; success exactly when unlock (if needed), mkdir and mount succeed, and then `mounted[path]` is the device mounted on its directory; the effects are exactly `MountEffects`: the unlock's, then, unless it failed, MountUnlocked's on the mount directory (see MountEffectsRunsMount) |
| AutomountDaemon.Daemon.UnmountDevice | daemon/daemon.go:267-303 | refuses an unmounted device with no effect; on umount failure only the umount(8) run happens; on success the mount point is cleared, the entry removed, and the effects are umount, directory removal, notification and device_unmounted hook in that order (see UnmountRemovesDirOnlyAfterSuccess) |
| AutomountDaemon.Daemon.MountThenUnmount | daemon/daemon.go:199-303 | a successful mount followed by a successful unmount leaves no entry for the device |
| AutomountDaemon.AdmittedTableKeys | daemon/daemon.go:118-127 | the first poll loop drops no entry of `mounted` and adds entries only under newly seen paths |
| AutomountDaemon.AdmittedTableUnchanged | daemon/daemon.go:118-127 | the first poll loop leaves the entry of every path it does not see as new exactly as it was |
| AutomountDaemon.AdmittedTableArrivals | daemon/daemon.go:118-127 | each newly seen device that is not ignored, is a partition the policy automounts, and mounts successfully ends the loop filed under its path, mounted on its mount directory |
| AutomountDaemon.PollTableEntries | daemon/daemon.go:116-135 | after a tick, a vanished mounted device is gone from `mounted` unless umount(8) failed on it, in which case its entry is kept; newly seen automount partitions that mount are in it; every other entry is unchanged; new entries are only under newly seen paths |
| AutomountDaemon.MountAllTableEntries | daemon/daemon.go:75-81 | MountAll drops no entry; every partition of the scan whose mount succeeds is in `mounted`; a new entry is such a partition, mounted on its directory; entries for paths outside the scan are unchanged |
| AutomountDaemon.Daemon.OnDeviceAdded | daemon/daemon.go:141-170 | an ignored device causes nothing; otherwise the effects are exactly the "Device Added" notification, the device_added hook and, for a partition the policy automounts, the mount attempt followed by "Mount Failed" when it fails; `mounted` gains the device exactly when it is such a partition and its mount succeeds |
| AutomountDaemon.Daemon.Automount | daemon/daemon.go:160-169 | `mounted` gains the device exactly when the mount succeeds; the effects are mountDevice's, then the "Mount Failed" notification exactly when the mount fails |
| AutomountDaemon.Daemon.OnDeviceRemoved | daemon/daemon.go:173-196 | unmounts only a path present in `mounted`; the effects are exactly that unmount's, then "Device Removed" naming the device (or the bare path when it was not mounted) |
| AutomountDaemon.Daemon.Admit | daemon/daemon.go:119-126 | a scanned device goes through onDeviceAdded, with its exact effects and its effect on `mounted`, exactly when its path was not known; a known path changes nothing |
| AutomountDaemon.Daemon.AdmitAll | daemon/daemon.go:118-127 | the known set gains the scanned paths, the added paths are the new ones, `mounted` is onDeviceAdded's table applied to each new path in scan order, and the effects are onDeviceAdded's for each device of `Arrivals` in turn (see ArrivalsCarryNewPaths) |
| AutomountDaemon.Daemon.RemoveAll | daemon/daemon.go:130-135 | every vanished path leaves the known set; `mounted` loses exactly the vanished paths whose umount(8) succeeds; the effects are onDeviceRemoved's for each vanished path in the given order (see EachRemovedUnmounts) |
| AutomountDaemon.Daemon.PollTick | daemon/daemon.go:110-135 | a failed scan changes nothing; otherwise the known set becomes the scanned paths, `mounted` is the additions table followed by the removals table (see PollTableEntries), and the effects are the additions' followed by the removals' |
| AutomountDaemon.Daemon.MountIfUnmountedPartition | daemon/daemon.go:76-80 | an unmounted partition is mounted, with mountDevice's exact effects; anything else causes nothing; `mounted` gains it exactly when the mount succeeds |
| AutomountDaemon.MountEffectsRunsMount | daemon/daemon.go:199-264 | mountDevice runs mount(8) on a device exactly when it is not mounted, its unlock (if needed) succeeds and its directory can be made, and then with the configured arguments on that directory; the directory is made whenever the unlock does not stop it |
| AutomountDaemon.UnmountRemovesDirOnlyAfterSuccess | daemon/daemon.go:267-303 | unmountDevice starts with umount(8) on the mount point and removes a directory only after umount succeeds, and only the mount point |
| AutomountDaemon.AddedMountsOnlyAutomountPartitions | daemon/daemon.go:141-170 | onDeviceAdded runs mount(8) only on a partition that is not ignored and that the policy automounts, and does run it on such a partition when unlock and mkdir succeed |
| AutomountDaemon.ArrivalsCarryNewPaths | daemon/daemon.go:118-127 | onDeviceAdded runs on one device per newly seen path, in the order of the added paths |
| AutomountDaemon.EachRemovedUnmounts | daemon/daemon.go:130-135 | the removal loop runs umount(8) on the mount point of every vanished mounted path, and every umount(8) it runs is on the mount point of a vanished path in the table |
| AutomountDaemon.EachRemovedAnnounces | daemon/daemon.go:173-196 | with the notification on, every vanished path gets a "Device Removed" notification |
| AutomountDaemon.MountAllAttemptsEach | daemon/daemon.go:75-81 | MountAll makes the directory of every unmounted partition whose unlock succeeds, and runs mount(8) on each whose directory is also made, whatever happened to the others |
| AutomountDaemon.Daemon.MountAll | daemon/daemon.go:69-84 | a failed scan is an error; otherwise `mounted` is the table of mountDevice applied to each unmounted partition in scan order (see MountAllTableEntries), and the effects are mountDevice's for each of them in turn (see MountAllAttemptsEach) |
| Tray.ParentFrom | tray/tray.go:539-557 | the prefix before the first 'p' or 's' at position > 0 followed by a digit, or "" when there is none |
| Tray.ParentDiskName | tray/tray.go:539-557 | the same from the start of the name |
| Tray.GetParentDiskName | tray/tray.go:539-557 | the scanning loop computes ParentDiskName |
| Tray.ParentDiskNameExamples | tray/tray.go:539-557 | "da0p1" gives "da0", "ada0s1" gives "ada0", "sda1" gives "" |
| Tray.PartitionsMembers | tray/tray.go:114-124 | the first pass lists exactly the removable partitions |
| Tray.RawDisksMembers | tray/tray.go:126-134 | the second pass lists exactly the removable whole disks whose name is no listed partition's parent |
| Tray.ParentsMembers | tray/tray.go:115-123 | the parent set holds exactly the non-empty parent names of removable partitions |
| Tray.DisplayListMembers | tray/tray.go:111-134 | a device is displayed exactly when it is a removable partition, or a removable whole disk that is not a listed partition's parent; non-removable devices never appear |
| Tray.PartitionedDiskHidden | tray/tray.go:111-134 | a whole disk whose partition is listed is not displayed |
| Tray.LinuxDiskListedBesidePartition | tray/tray.go:111-134 | "sda" is listed beside "sda1", because "sda1" has no parent name |
| Tray.PartitionsFirst | tray/tray.go:111-134 | every displayed partition comes before every displayed whole disk |
| Tray.ActionsByState | tray/tray.go:212-237 | Mount only for an unmounted partition; Open and Unmount for a mounted one, Eject too when removable; nothing for a whole disk |
| Tray.ListedMountedPartitionsEject | tray/tray.go:212-237 | every displayed mounted partition offers Eject |
| Tray.BuildItem | tray/tray.go:198-237 | the label is the display name, then " ●" when mounted, then " [Raw Disk]" when a whole disk, with the state's actions |
| Tray.MarksDistinguishState | tray/tray.go:199-207 | equal-length marks mean equal mounted and partition state |
| Tray.Items | tray/tray.go:193-249 | one item per displayed device, in order |
| Tray.BatchCountBounds | tray/tray.go:427-483 | no callback counts 0; the count never exceeds the candidates and equals them when no callback fails |
| Tray.Icon.constructor | tray/tray.go:35-73 | New returns after onReady's first rebuildMenu: on a successful scan the menu is the display list's items and, with auto-hide, the icon is visible exactly when that list is non-empty; on a failed scan it is visible with an empty menu; no events |
| Tray.Icon.Show | tray/tray.go:267-272 | visible, nothing else changes |
| Tray.Icon.Hide | tray/tray.go:275-280 | hidden, nothing else changes |
| Tray.Icon.SelectDisplay | tray/tray.go:111-134 | the two loops compute the display list |
| Tray.Icon.BuildItems | tray/tray.go:193-249 | the loop computes the items of the display list |
| Tray.Icon.RebuildMenu | tray/tray.go:98-190 | a failed scan keeps the menu; otherwise the menu is the display list's items, and with auto-hide the icon is visible exactly when the list is non-empty |
| Tray.Icon.OnBatch | tray/tray.go:427-483 | the callback runs for each removable partition in the wanted state; the count is the successes; a summary only when the count is positive |
| Notify.NotifyArgsRoundTrip | notify/notify.go:39-52 | notify-send reads back a positive timeout, the icon, the summary and the body |
| Notify.Notifier.constructor | notify/notify.go:9 | not initialized, nothing run |
| Notify.Notifier.Init | notify/notify.go:12-21 | succeeds exactly when notify-send is found, and only then sets the flag |
| Notify.Notifier.Close | notify/notify.go:24-26 | clears the flag |
| Notify.Notifier.BuildArgs | notify/notify.go:39-52 | "-t timeout" only when positive, "-i icon" only when non-empty, then summary and body |
| Notify.Notifier.SendWithIcon | notify/notify.go:34-56 | not initialized: an error and nothing run; otherwise one notify-send run |
| Notify.Notifier.Send | notify/notify.go:29-31 | SendWithIcon with the icon "drive-removable-media" |
| Startup.LoadConfigSource | main.go:171-193 | -no-config gives the defaults; a missing file gives the defaults; an unknown home without -config is an error |
| Startup.NoConfigIgnoresFilesystem | main.go:172-174 | with -no-config, neither the files present nor the home directory matter |
| Startup.HomeConfigUsed | main.go:176-190 | without -config, the home file is loaded exactly when it exists |
| Startup.ApplyFlags | main.go:195-224 | -no-automount forces off, else the default-true flag forces on, and only -automount=false keeps the file's value; the same for notifications; -no-tray over -tray over -auto-tray; -verbose and -quiet only set; nothing else changes |
| Startup.SwitchSetting | main.go:196-206 | the negating flag wins, then the flag, then the file's value |
| Startup.TraySetting | main.go:208-216 | -no-tray disables; else -tray enables without auto-hide; else -auto-tray enables with it; else unchanged |
| PgMount.FirstNamedFrom | cmd/pgmount/main.go:74-81 | the first device from `from` on named by its path, its name or "/dev/"+name, or none when none is |
| PgMount.FindTarget | cmd/pgmount/main.go:74-81 | the lookup loop finds that first device |
| PgMount.FlagsReachMount | cmd/pgmount/main.go:129-150 | a non-empty -o reaches mount(8) exactly as typed, and a non-empty -t as the type unless it is "auto" |
| PgMount.MountDevice | cmd/pgmount/main.go:119-166 | mkdir then mount with the overrides; the record is marked mounted only after mount(8) succeeds |
| PgMount.MountTarget | cmd/pgmount/main.go:66-95 | failed scan, no match and an already-mounted target do nothing; otherwise the first named device is mounted |
| PgMount.MountAllCountBounds | cmd/pgmount/main.go:43-55 | the count never exceeds the devices tried and equals it when nothing fails |
| PgMount.MountAll | cmd/pgmount/main.go:36-55 | a failed scan is fatal and does nothing; otherwise every unmounted partition is tried in order, failures do not stop the batch, and the successes are counted |
| PgUmount.FirstTargetFrom | cmd/pgumount/main.go:70-77 | the first device named as pgmount does or by its mount point |
| PgUmount.FindTarget | cmd/pgumount/main.go:70-77 | the lookup loop finds that first device |
| PgUmount.MountPointFindsDevice | cmd/pgumount/main.go:70-77 | a device's mount point names it when no earlier device is named |
| PgUmount.UnmountDevice | cmd/pgumount/main.go:101-124 | umount with "-f" only when forced, then the mount point; the directory is removed only after success |
| PgUmount.DetachDiskName | cmd/pgumount/main.go:133-139 | drops the last two characters when longer than 2 with 'p' second to last; else the name unchanged |
| PgUmount.DetachGptPartition | cmd/pgumount/main.go:133-139 | a one-digit GPT partition gives back its disk |
| PgUmount.DetachExamples | cmd/pgumount/main.go:133-139 | "da0p1" gives "da0"; "da0s1" and "da0p10" stay |
| PgUmount.Detach | cmd/pgumount/main.go:126-154 | camcontrol eject first, usbconfig power_off only when that fails; failure only when both fail |
| PgUmount.UnmountTarget | cmd/pgumount/main.go:62-98 | failed scan, no match and an unmounted target do nothing; otherwise unmount, then detach when asked and only after success |
| PgUmount.UnmountAllCountBounds | cmd/pgumount/main.go:33-51 | the count never exceeds the mounted devices and equals it when no unmount fails |
| PgUmount.EjectOnlyAfterUnmount | cmd/pgumount/main.go:33-51 | every eject in the batch names the disk of a mounted device whose unmount succeeded, and happens only with --detach |
| PgUmount.UnmountAll | cmd/pgumount/main.go:26-51 | a failed scan is fatal and does nothing; otherwise every mounted device is tried, failures included, and the successes are counted |
| PgUmount.UnmountAllOne | cmd/pgumount/main.go:35-47 | one device of the batch: unmount when mounted, detach only after success |
| PgInfo.TruncateString | cmd/pginfo/main.go:86-91 | s when it fits; otherwise its first maxLen characters followed by "..." |
| PgInfo.TruncateIdempotent | cmd/pginfo/main.go:86-91 | truncating twice is truncating once |
| PgInfo.LabelColumn | cmd/pginfo/main.go:69-72 | the label, or the name when the label is empty |
| PgInfo.RowFor | cmd/pginfo/main.go:52-79 | -v gives the long row with the UUID truncated to 8; the short row has the label column and "Yes"/"No" for mounted |
| PgInfo.RowsOfListed | cmd/pginfo/main.go:46-81 | one row per listed device, in order, and it is that device's row |
| PgInfo.ListedMembers | cmd/pginfo/main.go:47-50 | whole disks are listed only with -a |
| PgInfo.BuildReport | cmd/pginfo/main.go:30-81 | an empty scan prints only a message; otherwise the table of the listed devices' rows |

## Left out

- Process launching and file access. Every tool run and file read is an input: tool output in `Host`, success or failure in `World`, passwords in `World.passwords`. What the code does outside itself is an `Effect`. Error and log texts are not modelled; a notification records its summary, body and time. The "Mount Failed" body names the device but leaves out Go's error text.
- Concurrency. Goroutines, the mutex, the wait group, the ticker and stop channel, devd monitoring, and the tray's channels (handleUpdates, handleMenuItem, the menuCloseChan swap, UpdateDevices coalescing) are not modelled. One poll tick is one sequential method. Hooks and the file manager are recorded as effects that were started, not run.
- Aliasing of `*Device`. In Go the scan list, the cache and the daemon's `mounted` table share pointers, so setting a field through one is seen through all. Here records are values, and each operation returns the updated copy.
- Map iteration order. `GetMountedDevices` is a set. `RemoveAll` and `PollTick` take the order in which the vanished paths are visited as an input (any order of the vanished set, each path once), since Go's map iteration order is unspecified.
- Linux.ParseLinuxSize: every mantissa that is not a decimal integer below 2^53 goes to strconv.ParseFloat in Go. That covers fractions such as "7.5", exponents such as "1e3", "inf" and "NaN", hexadecimal floats, and digits with underscores. The model gives the outcome `FloatSyntax` for all of these and does not compute a value. It also does not decide which of them ParseFloat would reject, since only the character set is checked.
- Linux.ReadSize: scanLinux runs lsblk without `-b`, so lsblk usually prints human-readable sizes such as "14.9G". These take the `FloatSyntax` path, and the model leaves the size unchanged (0 for a fresh record). Go stores the float product truncated to an integer instead. Only plain byte counts and integer counts with a unit letter get their size here.
- formatSize in the tray and in pginfo is floating point and is not modelled. pginfo's size column carries the byte count.
- Notification times are float64 seconds multiplied by 1000 in Go. They are integer milliseconds here.
- Linux.ReadMountpoint and the other lsblk field readers: Go slices past the end of the line (and panics) when a key ends the line. The model treats the rest of the line as empty instead.
- DeviceRecord.GetDisplayName requires a UUID that is empty or at least 8 characters long, because Go panics on a shorter one.
- Character length is byte length only for ASCII. truncateString counts characters here, and the "●" mark is one character.
- The /sys/block fallback of scanLinux (scanLinuxFallback, findLinuxPartitions) reads files. Its result is an input, `Host.sysBlockScan`.
- SetDeviceChangedCallback is called from main.go but is not defined in daemon/daemon.go. It is not part of this model.
- YAML Load and Save of the configuration, command-line flag parsing and usage errors, logging and initLogger, signals, and the start-up sequence of main are not modelled. A failed scan under pgmount -a or pgumount -a, which is log.Fatalf, is modelled only as `ok` false with nothing done. pginfo's scan failure, which is also log.Fatalf, is not modelled.
- The terminal password prompt and passwordCmd are not modelled. The password the daemon obtains for a device is an input.
- The systray calls are not modelled: menu items as widgets, icons, tooltips, the disabled information sub-items of a whole disk, and the About and Quit items. Also out are the per-device menu handlers onMountDevice, onUnmountDevice, onEjectDevice and onOpenDevice (filepath.Abs, os.Stat, shell quoting), and onRefresh.
- pgmount's loadConfig (cmd/pgmount/main.go:98-117) makes the same decision as main.go's. It is covered by Startup.LoadConfigSource.
- The daemon's public MountDevice and UnmountDevice wrappers, GetDeviceManager, Start and Stop are not modelled separately. The wrappers are the private operations modelled here.
