/**
 * The string operations the commands are built from: prefix and suffix tests (with the ASCII case
 * folding of a `/i` regular expression), `String(n)` and `n.toString(16)`, `padStart`, the two-digit
 * chapter and track keys, `path.basename` and the extension strip of `entry add`.
 */
module Text {
  import opened Wrappers

  predicate StartsWith(s: string, prefix: string) {
    |prefix| <= |s| && s[..|prefix|] == prefix
  }

  predicate EndsWith(s: string, suffix: string) {
    |suffix| <= |s| && s[|s| - |suffix|..] == suffix
  }

  /** JavaScript truthiness of an optional string: present and not empty. */
  predicate Truthy(o: Option<string>) {
    o.Some? && o.value != ""
  }

  /** Case folding as a non-Unicode `/i` pattern compares ASCII letters. */
  function LowerAscii(c: char): char {
    if 'A' <= c <= 'Z' then (c as int + 32) as char else c
  }

  function Lower(s: string): string {
    seq(|s|, i requires 0 <= i < |s| => LowerAscii(s[i]))
  }

  /** `/suffix$/i.test(s)` for a literal suffix. */
  predicate EndsWithIgnoringCase(s: string, suffix: string) {
    |suffix| <= |s| && Lower(s[|s| - |suffix|..]) == Lower(suffix)
  }

  // ---------------------------------------------------------------------------------------------
  // Numbers as text
  // ---------------------------------------------------------------------------------------------

  const DigitChars := "0123456789abcdef"

  /** The (lower-case) digit for `d` in bases up to 16. */
  function DigitChar(d: nat): char
    requires d < 16
  {
    DigitChars[d]
  }

  /** The value of a decimal or lower-case hexadecimal digit. */
  function DigitValue(c: char): nat {
    if '0' <= c <= '9' then c as nat - '0' as nat
    else if 'a' <= c <= 'f' then c as nat - 'a' as nat + 10
    else 0
  }

  lemma DigitValueOfDigitChar(d: nat)
    requires d < 16
    ensures DigitValue(DigitChar(d)) == d
  {
    assert DigitChars == ['0', '1', '2', '3', '4', '5', '6', '7', '8', '9', 'a', 'b', 'c', 'd', 'e', 'f'];
  }

  /**
   * `n.toString(base)` for a non-negative integer: the shortest digit string, lower-case digits above 9.
   * `ToRadix(n, 10)` is `String(n)`.
   */
  function ToRadix(n: nat, base: nat): (r: string)
    requires 2 <= base <= 16
    ensures |r| >= 1
    ensures r[0] == '0' ==> n == 0
    decreases n
  {
    if n < base then [DigitChar(n)]
    else
      DivideByBase(n, base);
      ToRadix(n / base, base) + [DigitChar(n % base)]
  }

  /** The value of a digit string (leading zeros allowed), the inverse of ToRadix. */
  function FromRadix(s: string, base: nat): nat {
    if s == [] then 0 else FromRadix(s[..|s| - 1], base) * base + DigitValue(s[|s| - 1])
  }

  /** Division by a base between 2 and 16, one literal base at a time so that it stays linear. */
  lemma DivideByBase(n: nat, base: nat)
    requires 2 <= base <= 16 && n >= base
    ensures 0 < n / base < n && n % base < base && n == (n / base) * base + n % base
  {
    if base == 2 {} else if base == 3 {} else if base == 4 {} else if base == 5 {}
    else if base == 6 {} else if base == 7 {} else if base == 8 {} else if base == 9 {}
    else if base == 10 {} else if base == 11 {} else if base == 12 {} else if base == 13 {}
    else if base == 14 {} else if base == 15 {} else {}
  }

  lemma {:induction false} RadixRoundTrip(n: nat, base: nat)
    requires 2 <= base <= 16
    ensures FromRadix(ToRadix(n, base), base) == n
    decreases n
  {
    if n < base {
      DigitValueOfDigitChar(n);
      assert ToRadix(n, base)[..0] == [];
    } else {
      DivideByBase(n, base);
      var q, d := n / base, n % base;
      var high := ToRadix(q, base);
      var s := high + [DigitChar(d)];
      assert s[..|s| - 1] == high;
      RadixRoundTrip(q, base);
      DigitValueOfDigitChar(d);
      assert FromRadix(s, base) == q * base + d;
      assert n == q * base + d;
    }
  }

  /** `String(n)` for a non-negative integer. */
  function NatToString(n: nat): string {
    ToRadix(n, 10)
  }

  function Repeat(c: char, k: nat): (r: string)
    ensures |r| == k && forall i :: 0 <= i < k ==> r[i] == c
  {
    seq(k, _ => c)
  }

  /** Leading zeros do not change the value of a digit string. */
  lemma {:induction false} FromRadixLeadingZeros(k: nat, s: string, base: nat)
    ensures FromRadix(Repeat('0', k) + s, base) == FromRadix(s, base)
    decreases |s|, k
  {
    var z := Repeat('0', k);
    if s == [] {
      assert z + s == z;
      if k > 0 {
        assert z[..k - 1] == Repeat('0', k - 1) + [];
        FromRadixLeadingZeros(k - 1, [], base);
      }
    } else {
      var t := z + s;
      assert t[..|t| - 1] == z + s[..|s| - 1];
      FromRadixLeadingZeros(k, s[..|s| - 1], base);
    }
  }

  /** `s.padStart(width, fill)` with a one-character fill. */
  function PadStart(s: string, width: nat, fill: char): (r: string)
    ensures |s| >= width ==> r == s
    ensures |s| < width ==> |r| == width
    ensures EndsWith(r, s)
    ensures forall i :: 0 <= i < |r| - |s| ==> r[i] == fill
  {
    if |s| >= width then s else Repeat(fill, width - |s|) + s
  }

  /** The key of the chapter or track at 1- or 0-based number `n`: `String(n).padStart(2, "0")`. */
  function Key(n: nat): string {
    PadStart(NatToString(n), 2, '0')
  }

  /** A key reads back as the number it was made from. */
  lemma KeyRoundTrip(n: nat)
    ensures FromRadix(Key(n), 10) == n
  {
    var s := NatToString(n);
    RadixRoundTrip(n, 10);
    if |s| < 2 {
      assert Key(n) == Repeat('0', 2 - |s|) + s;
      FromRadixLeadingZeros(2 - |s|, s, 10);
    }
  }

  /** Different numbers get different keys. */
  lemma KeyInjective(m: nat, n: nat)
    ensures Key(m) == Key(n) ==> m == n
  {
    KeyRoundTrip(m);
    KeyRoundTrip(n);
  }

  /** Keys below 100 are exactly two characters; keys below 10 are "0" and the digit. */
  lemma KeyShape(n: nat)
    ensures n < 100 ==> |Key(n)| == 2
    ensures n < 10 ==> Key(n) == ['0', DigitChar(n)]
  {
    if n >= 10 && n < 100 {
      assert ToRadix(n / 10, 10) == [DigitChar(n / 10)];
    }
  }

  lemma FirstKeys()
    ensures Key(0) == "00" && Key(1) == "01" && Key(9) == "09"
  {
    KeyShape(0);
    KeyShape(1);
    KeyShape(9);
    assert DigitChar(0) == '0' && DigitChar(1) == '1' && DigitChar(9) == '9';
  }

  // ---------------------------------------------------------------------------------------------
  // File names
  // ---------------------------------------------------------------------------------------------

  /** The length of `s` once its trailing '/' characters are dropped. */
  function TrimmedLength(s: string, end: nat): (r: nat)
    requires end <= |s|
    ensures r <= end
    ensures forall k :: r <= k < end ==> s[k] == '/'
    ensures r > 0 ==> s[r - 1] != '/'
    decreases end
  {
    if end == 0 || s[end - 1] != '/' then end else TrimmedLength(s, end - 1)
  }

  /** The start of the last segment of `s[..end]`: just after its last '/', or 0. */
  function SegmentStart(s: string, end: nat): (r: nat)
    requires end <= |s|
    ensures r <= end
    ensures forall k :: r <= k < end ==> s[k] != '/'
    ensures r > 0 ==> s[r - 1] == '/'
    decreases end
  {
    if end == 0 || s[end - 1] == '/' then end else SegmentStart(s, end - 1)
  }

  /** POSIX `path.basename(p)`: the last non-empty segment, ignoring trailing slashes ("" if none). */
  function Basename(p: string): (r: string)
    ensures forall k :: 0 <= k < |r| ==> r[k] != '/'
    ensures (forall k :: 0 <= k < |p| ==> p[k] != '/') ==> r == p
  {
    var end := TrimmedLength(p, |p|);
    p[SegmentStart(p, end)..end]
  }

  /**
   * `basename` is the last non-empty segment: it ends where the trailing slashes begin, reaches back
   * to the '/' before it or to the start, and is empty only for a path that is empty or all slashes.
   */
  lemma BasenameIsLastSegment(p: string)
    ensures var end := TrimmedLength(p, |p|);
            var r := Basename(p);
            && (forall k :: end <= k < |p| ==> p[k] == '/')
            && |r| <= end && r == p[end - |r|..end]
            && (|r| < end ==> p[end - |r| - 1] == '/')
            && (r == [] <==> forall k :: 0 <= k < |p| ==> p[k] == '/')
  {
    var end := TrimmedLength(p, |p|);
    assert Basename(p) == p[SegmentStart(p, end)..end];
  }

  lemma BasenameExamples()
    ensures Basename("dir/song.mp3") == "song.mp3"
    ensures Basename("a/b/") == "b"
    ensures Basename("/") == ""
  {
    var p := "dir/song.mp3";
    assert TrimmedLength(p, 12) == 12;
    assert SegmentStart(p, 4) == 4;
    assert SegmentStart(p, 5) == 4;
    assert SegmentStart(p, 6) == 4;
    assert SegmentStart(p, 7) == 4;
    assert SegmentStart(p, 8) == 4;
    assert SegmentStart(p, 9) == 4;
    assert SegmentStart(p, 10) == 4;
    assert SegmentStart(p, 11) == 4;
    assert SegmentStart(p, 12) == 4;
    assert p[4..12] == "song.mp3";
    var q := "a/b/";
    assert TrimmedLength(q, 3) == 3;
    assert TrimmedLength(q, 4) == 3;
    assert SegmentStart(q, 2) == 2;
    assert SegmentStart(q, 3) == 2;
    assert q[2..3] == "b";
    assert TrimmedLength("/", 1) == 0;
  }

  /**
   * Position `i` starts a final extension in the sense of `/\.[^/.]+$/`: a '.', followed by at least
   * one character, none of them '.' or '/', up to the end.
   */
  ghost predicate ExtensionAt(s: string, i: int) {
    0 <= i < |s| - 1 && s[i] == '.' && forall k :: i < k < |s| ==> s[k] != '.' && s[k] != '/'
  }

  lemma ExtensionUnique(s: string, i: int, j: int)
    requires ExtensionAt(s, i) && ExtensionAt(s, j)
    ensures i == j
  {
  }

  /** Scans leftwards from `end`, where every character from `end` on is neither '.' nor '/'. */
  function ExtensionDot(s: string, end: nat): (r: Option<nat>)
    requires end <= |s|
    requires forall k :: end <= k < |s| ==> s[k] != '.' && s[k] != '/'
    ensures r.Some? ==> ExtensionAt(s, r.value)
    ensures r.None? ==> forall i :: 0 <= i < |s| ==> !ExtensionAt(s, i)
    decreases end
  {
    if end == 0 then
      None
    else if s[end - 1] == '.' then
      if end < |s| then Some(end - 1) else None
    else if s[end - 1] == '/' then
      None
    else
      ExtensionDot(s, end - 1)
  }

  /** `name.replace(/\.[^/.]+$/, "")`: drop a final ".ext", or leave the name as it is. */
  function StripExtension(name: string): (r: string)
    ensures forall i :: ExtensionAt(name, i) ==> r == name[..i]
    ensures (forall i :: 0 <= i < |name| ==> !ExtensionAt(name, i)) ==> r == name
    ensures StartsWith(name, r)
  {
    match ExtensionDot(name, |name|)
    case Some(i) =>
      assert forall j :: ExtensionAt(name, j) ==> j == i by {
        forall j | ExtensionAt(name, j) ensures j == i { ExtensionUnique(name, i, j); }
      }
      name[..i]
    case None => name
  }

  lemma StripExtensionExamples()
    ensures StripExtension("a.tar.gz") == "a.tar"
    ensures StripExtension("song.mp3") == "song"
    ensures StripExtension("song") == "song"
    ensures StripExtension("song.") == "song."
    ensures StripExtension(".hidden") == ""
  {
    assert ExtensionAt("a.tar.gz", 5);
    assert ExtensionAt("song.mp3", 4);
    assert ExtensionAt(".hidden", 0);
    forall i | 0 <= i < 4 ensures !ExtensionAt("song", i) { assert "song"[i] != '.'; }
    forall i | 0 <= i < 5 ensures !ExtensionAt("song.", i) {
      if i < 4 { assert "song."[4] == '.'; }
    }
  }
}
