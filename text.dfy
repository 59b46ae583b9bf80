/** Option, used wherever the Go code returns a nil pointer or a "found" flag. */
module Wrappers {
  datatype Option<+T> = None | Some(value: T)
}

/**
 * The small part of Go's `strings`, `bufio` and `strconv` packages that the
 * automounter's parsers rely on, over strings as sequences of characters.
 */
module Text {
  import opened Wrappers

  /** Go's unicode.IsSpace. */
  predicate IsSpace(c: char) {
    || c == ' ' || c == '\t' || c == '\n' || c == '\r' || c == '\U{0B}' || c == '\U{0C}'
    || c == '\U{85}' || c == '\U{A0}' || c == '\U{1680}' || ('\U{2000}' <= c <= '\U{200A}')
    || c == '\U{2028}' || c == '\U{2029}' || c == '\U{202F}' || c == '\U{205F}' || c == '\U{3000}'
  }

  predicate IsDigit(c: char) {
    '0' <= c <= '9'
  }

  predicate NoSpace(w: string) {
    forall i :: 0 <= i < |w| ==> !IsSpace(w[i])
  }

  /** A field as strings.Fields yields it: non-empty, without white space. */
  predicate IsWord(w: string) {
    w != [] && NoSpace(w)
  }

  predicate AllDigits(s: string) {
    forall i :: 0 <= i < |s| ==> IsDigit(s[i])
  }

  function TrimLeftSpace(s: string): (r: string)
    ensures |r| <= |s| && r == s[|s| - |r|..]
    ensures r == [] || !IsSpace(r[0])
    ensures forall i :: 0 <= i < |s| - |r| ==> IsSpace(s[i])
  {
    if s != [] && IsSpace(s[0]) then TrimLeftSpace(s[1..]) else s
  }

  function TrimRightSpace(s: string): (r: string)
    ensures |r| <= |s| && r == s[..|r|]
    ensures r == [] || !IsSpace(r[|r| - 1])
    ensures forall i :: |r| <= i < |s| ==> IsSpace(s[i])
  {
    if s != [] && IsSpace(s[|s| - 1]) then TrimRightSpace(s[..|s| - 1]) else s
  }

  /** strings.TrimSpace: no leading or trailing white space is left. */
  function TrimSpace(s: string): (r: string)
    ensures r == [] || (!IsSpace(r[0]) && !IsSpace(r[|r| - 1]))
    ensures |r| <= |s|
  {
    TrimRightSpace(TrimLeftSpace(s))
  }

  /** A string with no white space at either end is its own TrimSpace. */
  lemma TrimSpaceNoop(s: string)
    requires s == [] || (!IsSpace(s[0]) && !IsSpace(s[|s| - 1]))
    ensures TrimSpace(s) == s
  {
    assert TrimLeftSpace(s) == s;
  }

  predicate HasPrefix(s: string, p: string) {
    |p| <= |s| && s[..|p|] == p
  }

  function TrimPrefix(s: string, p: string): (r: string)
    ensures HasPrefix(s, p) ==> p + r == s
    ensures !HasPrefix(s, p) ==> r == s
  {
    if HasPrefix(s, p) then s[|p|..] else s
  }

  /** `sub` occurs in `s` starting at position `j`. */
  predicate OccursAt(s: string, sub: string, j: int) {
    0 <= j && j + |sub| <= |s| && s[j..j + |sub|] == sub
  }

  function IndexFrom(s: string, sub: string, k: nat): (r: int)
    decreases |s| - k
    ensures r == -1 || (k <= r && OccursAt(s, sub, r))
    ensures r == -1 ==> forall j :: k <= j ==> !OccursAt(s, sub, j)
    ensures r != -1 ==> forall j :: k <= j < r ==> !OccursAt(s, sub, j)
  {
    if k + |sub| > |s| then -1
    else if s[k..k + |sub|] == sub then k
    else IndexFrom(s, sub, k + 1)
  }

  /** strings.Index: the first position at which `sub` occurs, or -1. */
  function Index(s: string, sub: string): (r: int)
    ensures r == -1 || OccursAt(s, sub, r)
    ensures r == -1 ==> forall j :: !OccursAt(s, sub, j)
    ensures r != -1 ==> forall j :: 0 <= j < r ==> !OccursAt(s, sub, j)
  {
    IndexFrom(s, sub, 0)
  }

  /** strings.Contains. */
  predicate Contains(s: string, sub: string) {
    Index(s, sub) >= 0
  }

  lemma ContainsAt(s: string, sub: string, j: int)
    requires OccursAt(s, sub, j)
    ensures Contains(s, sub)
  {
  }

  /** A word: the non-space characters at the front of `s`. */
  function TakeWord(s: string): (r: string)
    ensures |r| <= |s| && r == s[..|r|]
    ensures NoSpace(r)
    ensures |r| == |s| || IsSpace(s[|r|])
    ensures s != [] && !IsSpace(s[0]) ==> |r| > 0
  {
    if s == [] || IsSpace(s[0]) then [] else [s[0]] + TakeWord(s[1..])
  }

  /** strings.Fields: the maximal runs of non-space characters, in order. */
  function Fields(s: string): (r: seq<string>)
    decreases |s|
    ensures forall w :: w in r ==> IsWord(w)
  {
    var t := TrimLeftSpace(s);
    if t == [] then []
    else
      var w := TakeWord(t);
      [w] + Fields(t[|w|..])
  }

  /** strings.Split for a non-empty separator. */
  function Split(s: string, sep: string): (r: seq<string>)
    requires |sep| > 0
    decreases |s|
    ensures |r| >= 1
    ensures |r| == 1 <==> !Contains(s, sep)
  {
    var i := Index(s, sep);
    if i < 0 then [s] else [s[..i]] + Split(s[i + |sep|..], sep)
  }

  /** strings.Join. */
  function Join(parts: seq<string>, sep: string): string {
    if |parts| == 0 then ""
    else if |parts| == 1 then parts[0]
    else parts[0] + sep + Join(parts[1..], sep)
  }

  /** strings.ReplaceAll for a non-empty pattern: leftmost, non-overlapping matches. */
  function ReplaceAll(s: string, pat: string, rep: string): string
    requires |pat| > 0
    decreases |s|
  {
    var i := Index(s, pat);
    if i < 0 then s else s[..i] + rep + ReplaceAll(s[i + |pat|..], pat, rep)
  }

  lemma Reassemble(s: string, sep: string, i: int)
    requires OccursAt(s, sep, i)
    ensures s == s[..i] + sep + s[i + |sep|..]
  {
    assert s == s[..i] + s[i..i + |sep|] + s[i + |sep|..];
  }

  /** Joining the pieces of a split with the same separator gives back the original text. */
  lemma {:induction false} JoinSplit(s: string, sep: string)
    requires |sep| > 0
    ensures Join(Split(s, sep), sep) == s
    decreases |s|
  {
    var i := Index(s, sep);
    if i >= 0 {
      var rest := s[i + |sep|..];
      JoinSplit(rest, sep);
      JoinCons(s[..i], Split(rest, sep), sep);
      Reassemble(s, sep, i);
    }
  }

  lemma JoinCons(a: string, tail: seq<string>, sep: string)
    requires |tail| >= 1
    ensures Join([a] + tail, sep) == a + sep + Join(tail, sep)
  {
    assert ([a] + tail)[1..] == tail;
  }

  /** Text without the pattern is left as it is. */
  lemma ReplaceAllAbsent(s: string, pat: string, rep: string)
    requires |pat| > 0 && !Contains(s, pat)
    ensures ReplaceAll(s, pat, rep) == s
  {
  }

  /** The pattern on its own is replaced by the replacement. */
  lemma ReplaceAllWhole(pat: string, rep: string)
    requires |pat| > 0
    ensures ReplaceAll(pat, pat, rep) == rep
  {
    assert OccursAt(pat, pat, 0);
    assert Index(pat, pat) == 0;
    assert pat[|pat|..] == [];
    assert Index([], pat) == -1;
  }

  /** Replacing one character by one character rewrites exactly the positions holding it. */
  lemma {:induction false} ReplaceCharAt(s: string, o: char, n: char)
    ensures |ReplaceAll(s, [o], [n])| == |s|
    ensures forall i :: 0 <= i < |s| ==>
      ReplaceAll(s, [o], [n])[i] == if s[i] == o then n else s[i]
    decreases |s|
  {
    var i := Index(s, [o]);
    if i >= 0 {
      var tail := s[i + 1..];
      ReplaceCharAt(tail, o, n);
      var r := ReplaceAll(s, [o], [n]);
      assert r == s[..i] + [n] + ReplaceAll(tail, [o], [n]);
      forall j | 0 <= j < |s| ensures r[j] == if s[j] == o then n else s[j] {
        if j < i {
          assert !OccursAt(s, [o], j);
          assert s[j..j + 1] == [s[j]];
        } else if j > i {
          assert r[j] == ReplaceAll(tail, [o], [n])[j - i - 1];
          assert tail[j - i - 1] == s[j];
        } else {
          assert s[i..i + 1] == [o];
        }
      }
    } else {
      forall j | 0 <= j < |s| ensures s[j] != o {
        assert !OccursAt(s, [o], j);
        assert s[j..j + 1] == [s[j]];
      }
    }
  }

  function DropCR(s: string): string {
    if |s| > 0 && s[|s| - 1] == '\r' then s[..|s| - 1] else s
  }

  /**
   * The lines a bufio.Scanner with ScanLines yields: split at each newline,
   * one trailing carriage return dropped, no empty final line after a
   * terminating newline.
   */
  function ScanLines(s: string): seq<string>
    decreases |s|
  {
    if s == [] then []
    else
      var i := Index(s, "\n");
      if i < 0 then [DropCR(s)] else [DropCR(s[..i])] + ScanLines(s[i + 1..])
  }

  function LowerChar(c: char): char {
    if 'A' <= c <= 'Z' then (c as int + 32) as char else c
  }

  /** strings.ToLower, for ASCII letters. */
  function ToLower(s: string): (r: string)
    ensures |r| == |s|
  {
    seq(|s|, i requires 0 <= i < |s| => LowerChar(s[i]))
  }

  function DigitValue(c: char): nat
    requires IsDigit(c)
  {
    c as int - '0' as int
  }

  /** The value of a string of decimal digits. */
  function DecimalValue(s: string): nat
    requires AllDigits(s)
  {
    if s == [] then 0 else 10 * DecimalValue(s[..|s| - 1]) + DigitValue(s[|s| - 1])
  }

  /** The decimal digits at the front of `s`. */
  function LeadingDigits(s: string): (r: string)
    ensures |r| <= |s| && r == s[..|r|] && AllDigits(r)
    ensures |r| == |s| || !IsDigit(s[|r|])
  {
    if s != [] && IsDigit(s[0]) then [s[0]] + LeadingDigits(s[1..]) else []
  }

  /** strconv.Itoa for a natural number. */
  function NatToString(n: nat): (r: string)
    ensures r != [] && AllDigits(r)
    ensures DecimalValue(r) == n
  {
    var d := ['0' + (n % 10) as char];
    assert DecimalValue(d) == n % 10;
    if n < 10 then d
    else
      var r := NatToString(n / 10) + d;
      assert r[..|r| - 1] == NatToString(n / 10);
      r
  }

  const UINT64_LIMIT: nat := 0x1_0000_0000_0000_0000

  /**
   * fmt.Sscanf(tok, "%d", &x) into a uint64: the decimal digits at the front
   * of `tok`; None (x is left alone) when there are none or the value does
   * not fit in 64 bits.
   */
  function ScanUint64(tok: string): Option<nat> {
    var digits := LeadingDigits(tok);
    if digits != [] && DecimalValue(digits) < UINT64_LIMIT then Some(DecimalValue(digits)) else None
  }

  /** A scanned value fits in 64 bits, and scanning fails exactly when `tok` does not start with a digit or overflows. */
  lemma ScanUint64Range(tok: string)
    ensures var r := ScanUint64(tok);
      && (r.Some? ==> r.value < UINT64_LIMIT)
      && (r.None? <==> tok == [] || !IsDigit(tok[0]) || DecimalValue(LeadingDigits(tok)) >= UINT64_LIMIT)
  {
  }

  lemma {:induction false} LeadingDigitsOfNumber(s: string, rest: string)
    requires AllDigits(s)
    requires rest == [] || !IsDigit(rest[0])
    ensures LeadingDigits(s + rest) == s
    decreases |s|
  {
    if s != [] {
      assert (s + rest)[1..] == s[1..] + rest;
      LeadingDigitsOfNumber(s[1..], rest);
    }
  }

  /** Scanning the decimal form of a 64-bit value, followed by anything but a digit, gives the value back. */
  lemma ScanUint64RoundTrip(n: nat, rest: string)
    requires n < UINT64_LIMIT
    requires rest == [] || !IsDigit(rest[0])
    ensures ScanUint64(NatToString(n) + rest) == Some(n)
  {
    LeadingDigitsOfNumber(NatToString(n), rest);
  }
}
