/**
 * The external commands the daemon and the command-line tools run, the
 * argument lists they build for mount(8) and umount(8), and the outcomes
 * of those commands, which the model takes as inputs.
 */
module Commands {
  import opened Text
  import opened Wrappers

  /** Something done outside the program, in the order it is done. */
  datatype Effect =
    | Exec(program: string, args: seq<string>, stdin: string)   // a command run to completion
    | MakeDirs(path: string)                                     // os.MkdirAll
    | RemoveDir(path: string)                                    // os.Remove of an emptied mount point
    | Notify(summary: string, body: string, timeout: int)        // notify.Send
    | Hook(command: string)                                      // `sh -c command`, started in the background
    | Launch(program: string, path: string)                      // the file manager, started in the background

  /**
   * How the outside world answers: the arguments on which each operation
   * fails. `passwords` holds the password the daemon obtains for a device
   * path; a missing entry means obtaining it fails.
   */
  datatype World = World(
    mkdirFails: set<string>,       // mount points MkdirAll cannot create
    mountFails: set<string>,       // device paths mount(8) refuses
    umountFails: set<string>,      // mount points umount(8) refuses
    geliFails: set<string>,        // device paths `geli attach` refuses
    passwords: map<string, string>,
    ejectFails: set<string>,       // disk names `camcontrol eject` refuses
    powerOffFails: set<string>)    // disk names `usbconfig power_off` refuses

  /** An argument mount(8) and umount(8) read as an operand rather than a flag. */
  predicate IsOperand(a: string) {
    a != "" && a[0] != '-'
  }

  /** Only a type other than "" and "auto" is passed with -t. */
  predicate ExplicitType(fstype: string) {
    fstype != "" && fstype != "auto"
  }

  /** The arguments of `mount`: options, type, device path, mount point. */
  function MountArgs(opts: seq<string>, fstype: string, path: string, mountPoint: string): seq<string> {
    (if |opts| > 0 then ["-o", Join(opts, ",")] else [])
    + (if ExplicitType(fstype) then ["-t", fstype] else [])
    + [path, mountPoint]
  }

  /** The arguments of `mount` built by appending, as daemon and pgmount do. */
  method BuildMountArgs(opts: seq<string>, fstype: string, path: string, mountPoint: string)
    returns (args: seq<string>)
    ensures args == MountArgs(opts, fstype, path, mountPoint)
  {
    args := [];
    if |opts| > 0 {
      args := args + ["-o", Join(opts, ",")];
    }
    if fstype != "" && fstype != "auto" {
      args := args + ["-t", fstype];
    }
    args := args + [path, mountPoint];
  }

  /** What mount(8) takes from its arguments. Options and type are "" when not given. */
  datatype MountRequest = MountRequest(options: string, fstype: string, special: string, node: string)

  /** mount(8)'s reading of `-o X`, `-t X` and the two operands. */
  function ReadMountArgs(args: seq<string>): Option<MountRequest>
    decreases |args|
  {
    if |args| == 2 then
      if IsOperand(args[0]) && IsOperand(args[1]) then Some(MountRequest("", "", args[0], args[1])) else None
    else if |args| >= 4 && args[0] == "-o" then
      match ReadMountArgs(args[2..])
      case Some(r) => Some(r.(options := args[1]))
      case None => None
    else if |args| >= 4 && args[0] == "-t" then
      match ReadMountArgs(args[2..])
      case Some(r) => Some(r.(fstype := args[1]))
      case None => None
    else None
  }

  /**
   * mount(8) reads back what was built: the options joined by commas, the
   * type when it is explicit, and the device path and mount point as its
   * two operands.
   */
  lemma MountArgsRoundTrip(opts: seq<string>, fstype: string, path: string, mountPoint: string)
    requires IsOperand(path) && IsOperand(mountPoint)
    ensures ReadMountArgs(MountArgs(opts, fstype, path, mountPoint))
      == Some(MountRequest(Join(opts, ","), if ExplicitType(fstype) then fstype else "", path, mountPoint))
  {
    var tail := (if ExplicitType(fstype) then ["-t", fstype] else []) + [path, mountPoint];
    assert ReadMountArgs([path, mountPoint]) == Some(MountRequest("", "", path, mountPoint));
    if ExplicitType(fstype) {
      assert tail[2..] == [path, mountPoint];
    }
    assert ReadMountArgs(tail) == Some(MountRequest("", if ExplicitType(fstype) then fstype else "", path, mountPoint));
    if |opts| > 0 {
      var args := MountArgs(opts, fstype, path, mountPoint);
      assert args == ["-o", Join(opts, ",")] + tail;
      assert args[2..] == tail;
    } else {
      assert MountArgs(opts, fstype, path, mountPoint) == tail;
    }
  }

  /** The arguments of `umount`: -f when forced, then the mount point. */
  function UnmountArgs(force: bool, mountPoint: string): seq<string> {
    (if force then ["-f"] else []) + [mountPoint]
  }

  /** umount(8)'s reading of an optional -f and one operand. */
  function ReadUnmountArgs(args: seq<string>): Option<(bool, string)> {
    if |args| == 1 && IsOperand(args[0]) then Some((false, args[0]))
    else if |args| == 2 && args[0] == "-f" && IsOperand(args[1]) then Some((true, args[1]))
    else None
  }

  lemma UnmountArgsRoundTrip(force: bool, mountPoint: string)
    requires IsOperand(mountPoint)
    ensures ReadUnmountArgs(UnmountArgs(force, mountPoint)) == Some((force, mountPoint))
  {
  }
}
