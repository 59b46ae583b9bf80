/**
 * The lexical path handling of Go's path/filepath on a Unix host: Clean and
 * the two-element Join that the mount-directory computation uses.
 */
module Paths {
  import opened Text

  predicate NoSlash(s: string) {
    forall i :: 0 <= i < |s| ==> s[i] != '/'
  }

  /** The '/'-separated components of a path, empty ones included. */
  function Components(p: string): (r: seq<string>)
    ensures |r| >= 1
  {
    if p == [] then [""]
    else
      var rest := Components(p[1..]);
      if p[0] == '/' then [""] + rest else [[p[0]] + rest[0]] + rest[1..]
  }

  /**
   * Filepath.Clean's treatment of the components, left to right: empty and
   * "." components vanish, ".." removes the previous real component, is
   * dropped at the root of a rooted path and is kept otherwise.
   */
  function Resolve(stack: seq<string>, comps: seq<string>, rooted: bool): seq<string>
    decreases |comps|
  {
    if comps == [] then stack
    else
      var c := comps[0];
      var next :=
        if c == "" || c == "." then stack
        else if c == ".." then
          if |stack| > 0 && stack[|stack| - 1] != ".." then stack[..|stack| - 1]
          else if rooted then stack
          else stack + [".."]
        else stack + [c];
      Resolve(next, comps[1..], rooted)
  }

  /** filepath.Clean. */
  function Clean(p: string): string {
    var rooted := |p| > 0 && p[0] == '/';
    var out := (if rooted then "/" else "") + Join(Resolve([], Components(p), rooted), "/");
    if out == "" then "." else out
  }

  /** filepath.Join(base, elem): empty elements are ignored and the result is cleaned. */
  function JoinPath(base: string, elem: string): string {
    if base != "" then Clean(base + "/" + elem)
    else if elem != "" then Clean(elem)
    else ""
  }

  lemma {:induction false} ComponentsOfName(name: string)
    requires NoSlash(name)
    ensures Components(name) == [name]
  {
    if name != [] {
      ComponentsOfName(name[1..]);
      assert [name[0]] + name[1..] == name;
    }
  }

  lemma {:induction false} ComponentsAppend(a: string, name: string)
    requires NoSlash(name)
    ensures Components(a + "/" + name) == Components(a) + [name]
    decreases |a|
  {
    if a == [] {
      assert a + "/" + name == "/" + name;
      assert ("/" + name)[1..] == name;
      ComponentsOfName(name);
    } else {
      assert (a + "/" + name)[1..] == a[1..] + "/" + name;
      ComponentsAppend(a[1..], name);
    }
  }

  predicate IsPlainName(name: string) {
    NoSlash(name) && name != "" && name != "." && name != ".."
  }

  lemma {:induction false} ResolveAppend(stack: seq<string>, comps: seq<string>, rooted: bool, name: string)
    requires IsPlainName(name)
    ensures Resolve(stack, comps + [name], rooted) == Resolve(stack, comps, rooted) + [name]
    decreases |comps|
  {
    if comps == [] {
      assert Resolve(stack, [name], rooted) == Resolve(stack + [name], [], rooted);
    } else {
      assert (comps + [name])[0] == comps[0];
      assert (comps + [name])[1..] == comps[1..] + [name];
      var c := comps[0];
      var next :=
        if c == "" || c == "." then stack
        else if c == ".." then
          if |stack| > 0 && stack[|stack| - 1] != ".." then stack[..|stack| - 1]
          else if rooted then stack
          else stack + [".."]
        else stack + [c];
      ResolveAppend(next, comps[1..], rooted, name);
    }
  }

  lemma {:induction false} JoinSnoc(parts: seq<string>, sep: string, last: string)
    requires |parts| > 0
    ensures Join(parts + [last], sep) == Join(parts, sep) + sep + last
    decreases |parts|
  {
    if |parts| > 1 {
      assert (parts + [last])[1..] == parts[1..] + [last];
      JoinSnoc(parts[1..], sep, last);
    }
  }

  /**
   * Joining a plain name (no '/', not empty, not "." or "..") to a base
   * directory that is already clean, and neither "/" nor ".", just puts the
   * name under the base.
   */
  lemma JoinPlainName(base: string, name: string)
    requires Clean(base) == base && base != "/" && base != "."
    requires IsPlainName(name)
    ensures JoinPath(base, name) == base + "/" + name
  {
    var rooted := |base| > 0 && base[0] == '/';
    var pre := if rooted then "/" else "";
    var s := Resolve([], Components(base), rooted);
    assert base != "";
    var p := base + "/" + name;
    assert p[0] == base[0];
    ComponentsAppend(base, name);
    ResolveAppend([], Components(base), rooted, name);
    assert Resolve([], Components(p), rooted) == s + [name];
    assert pre + Join(s, "/") == base;
    assert |s| > 0;
    JoinSnoc(s, "/", name);
  }

  /**
   * A name of ".." climbs out of the base directory: a one-level base such
   * as "/media" joined with ".." is the root.
   */
  lemma JoinDotDotLeavesBase(dir: string)
    requires IsPlainName(dir)
    ensures JoinPath("/" + dir, "..") == "/"
  {
    var base := "/" + dir;
    var p := base + "/" + "..";
    assert "" + "/" + dir == base;
    ComponentsAppend("", dir);
    ComponentsAppend(base, "..");
    var comps := ["", dir, ".."];
    assert Components(p) == comps;
    assert comps[1..] == [dir, ".."] && comps[1..][1..] == [".."];
    calc {
      Resolve([], comps, true);
      Resolve([], [dir, ".."], true);
      Resolve([dir], [".."], true);
      Resolve([], [], true);
    }
    assert p[0] == '/';
  }
}
