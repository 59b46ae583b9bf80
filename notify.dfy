/**
 * Desktop notifications (notify/notify.go): the `initialized` flag set by
 * Init and cleared by Close, and the notify-send argument list. Whether
 * notify-send is on the PATH and whether a run fails are inputs.
 */
module Notify {
  import opened Text
  import opened Wrappers

  /** The icon Send always uses. */
  const DefaultIcon: string := "drive-removable-media"

  /** The arguments of notify-send: -t only for a positive timeout, -i only for an icon, then summary and body. */
  function NotifyArgs(summary: string, body: string, icon: string, timeout: int): seq<string> {
    (if timeout > 0 then ["-t", NatToString(timeout)] else [])
    + (if icon != "" then ["-i", icon] else [])
    + [summary, body]
  }

  /** What notify-send takes from its arguments; timeout 0 and icon "" when not given. */
  datatype Request = Request(timeout: nat, icon: string, summary: string, body: string)

  /** notify-send's positional reading of `-t N`, `-i ICON`, summary and body. */
  function ReadNotifyArgs(args: seq<string>): Option<Request>
    decreases |args|
  {
    if |args| == 2 then Some(Request(0, "", args[0], args[1]))
    else if |args| >= 4 && args[0] == "-t" && args[1] != [] && AllDigits(args[1]) then
      match ReadNotifyArgs(args[2..])
      case Some(r) => Some(r.(timeout := DecimalValue(args[1])))
      case None => None
    else if |args| >= 4 && args[0] == "-i" then
      match ReadNotifyArgs(args[2..])
      case Some(r) => Some(r.(icon := args[1]))
      case None => None
    else None
  }

  /**
   * notify-send reads back the summary, the body, the icon and a positive
   * timeout exactly; a timeout of zero or less is not passed.
   */
  lemma NotifyArgsRoundTrip(summary: string, body: string, icon: string, timeout: int)
    ensures ReadNotifyArgs(NotifyArgs(summary, body, icon, timeout))
      == Some(Request(if timeout > 0 then timeout else 0, icon, summary, body))
  {
    var tail := (if icon != "" then ["-i", icon] else []) + [summary, body];
    assert ReadNotifyArgs([summary, body]) == Some(Request(0, "", summary, body));
    if icon != "" {
      assert tail[2..] == [summary, body];
    }
    assert ReadNotifyArgs(tail) == Some(Request(0, icon, summary, body));
    if timeout > 0 {
      var args := NotifyArgs(summary, body, icon, timeout);
      assert args == ["-t", NatToString(timeout)] + tail;
      assert args[2..] == tail;
    } else {
      assert NotifyArgs(summary, body, icon, timeout) == tail;
    }
  }

  /** The package state: whether Init found notify-send, and the notify-send runs so far. */
  class Notifier {
    var initialized: bool
    var runs: seq<seq<string>>

    constructor()
      ensures !initialized && runs == []
    {
      initialized := false;
      runs := [];
    }

    /** Init: sets the flag only when notify-send is found; otherwise it reports an error and leaves the flag alone. */
    method Init(found: bool) returns (ok: bool)
      modifies this
      ensures ok == found
      ensures initialized == (found || old(initialized)) && runs == old(runs)
    {
      if !found {
        return false;
      }
      initialized := true;
      ok := true;
    }

    /** Close always clears the flag. */
    method Close()
      modifies this
      ensures !initialized && runs == old(runs)
    {
      initialized := false;
    }

    /** The argument list of SendWithIcon, built by appending. */
    static method BuildArgs(summary: string, body: string, icon: string, timeout: int) returns (args: seq<string>)
      ensures args == NotifyArgs(summary, body, icon, timeout)
    {
      args := [];
      if timeout > 0 {
        args := args + ["-t", NatToString(timeout)];
      }
      if icon != "" {
        args := args + ["-i", icon];
      }
      args := args + [summary, body];
    }

    /**
     * SendWithIcon: without Init it fails and runs nothing; otherwise it
     * runs notify-send once and succeeds unless that run fails.
     */
    method SendWithIcon(summary: string, body: string, icon: string, timeout: int, runFails: bool) returns (ok: bool)
      modifies this
      ensures !old(initialized) ==> !ok && runs == old(runs)
      ensures old(initialized) ==> ok == !runFails && runs == old(runs) + [NotifyArgs(summary, body, icon, timeout)]
      ensures initialized == old(initialized)
    {
      if !initialized {
        return false;
      }
      var args := BuildArgs(summary, body, icon, timeout);
      runs := runs + [args];
      ok := !runFails;
    }

    /** Send: SendWithIcon with the removable-media icon. */
    method Send(summary: string, body: string, timeout: int, runFails: bool) returns (ok: bool)
      modifies this
      ensures !old(initialized) ==> !ok && runs == old(runs)
      ensures old(initialized) ==> ok == !runFails && runs == old(runs) + [NotifyArgs(summary, body, DefaultIcon, timeout)]
      ensures initialized == old(initialized)
    {
      ok := SendWithIcon(summary, body, DefaultIcon, timeout, runFails);
    }
  }
}
