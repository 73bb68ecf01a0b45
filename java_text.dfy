/**
 * The java.lang.String operations the server handshake relies on: split on a
 * one-character separator, trim, equalsIgnoreCase, and the decimal rendering of
 * an int in string concatenation.
 */
module JavaText {
  import opened Common

  // ---------------------------------------------------------------------------
  // Splitting and joining
  // ---------------------------------------------------------------------------

  /** All the pieces of s between occurrences of c, empty pieces included. */
  function Split(s: string, c: char): (r: seq<string>)
    ensures |r| >= 1
    ensures forall i :: 0 <= i < |r| ==> c !in r[i]
  {
    if s == [] then [""]
    else if s[0] == c then [""] + Split(s[1..], c)
    else
      var t := Split(s[1..], c);
      [[s[0]] + t[0]] + t[1..]
  }

  /** The pieces put back together with c between consecutive ones. */
  function Join(parts: seq<string>, c: char): string
    requires |parts| >= 1
  {
    if |parts| == 1 then parts[0] else parts[0] + [c] + Join(parts[1..], c)
  }

  /** Splitting loses nothing: joining the pieces gives the string back. */
  lemma {:induction false} JoinSplit(s: string, c: char)
    ensures Join(Split(s, c), c) == s
  {
    if s != [] {
      JoinSplit(s[1..], c);
      var t := Split(s[1..], c);
      if s[0] != c && |t| > 1 {
        assert t == [t[0]] + t[1..];
      }
    }
  }

  /** Pieces without the separator are exactly what splitting their join gives. */
  lemma {:induction false} SplitJoin(parts: seq<string>, c: char)
    requires |parts| >= 1
    requires forall i :: 0 <= i < |parts| ==> c !in parts[i]
    ensures Split(Join(parts, c), c) == parts
  {
    if |parts| == 1 {
      SplitNoSeparator(parts[0], c);
    } else {
      SplitJoin(parts[1..], c);
      SplitPrefix(parts[0], Join(parts[1..], c), c);
      assert parts == [parts[0]] + parts[1..];
    }
  }

  /** A string without the separator is a single piece. */
  lemma {:induction false} SplitNoSeparator(s: string, c: char)
    requires c !in s
    ensures Split(s, c) == [s]
  {
    if s != [] {
      SplitNoSeparator(s[1..], c);
      assert [s[0]] + s[1..] == s;
    }
  }

  /** A separator-free prefix followed by the separator becomes the first piece. */
  lemma {:induction false} SplitPrefix(a: string, rest: string, c: char)
    requires c !in a
    ensures Split(a + [c] + rest, c) == [a] + Split(rest, c)
  {
    if a != [] {
      assert (a + [c] + rest)[1..] == a[1..] + [c] + rest;
      SplitPrefix(a[1..], rest, c);
      assert [a[0]] + a[1..] == a;
    } else {
      assert (a + [c] + rest)[1..] == rest;
    }
  }

  /** The pieces without the trailing empty ones. */
  function DropTrailingEmpty(parts: seq<string>): (r: seq<string>)
    ensures |r| <= |parts| && r == parts[..|r|]
    ensures r != [] ==> r[|r| - 1] != ""
    ensures forall k :: |r| <= k < |parts| ==> parts[k] == ""
  {
    if parts == [] then []
    else if parts[|parts| - 1] == "" then DropTrailingEmpty(parts[..|parts| - 1])
    else parts
  }

  /**
   * String.split with a one-character pattern and no limit: a string without the
   * separator is returned whole (even when empty); otherwise the pieces with the
   * trailing empty ones removed. Either way the result is a prefix of all the
   * pieces, and only empty pieces are left off.
   */
  function JavaSplit(s: string, c: char): (r: seq<string>)
    ensures c !in s ==> r == [s]
    ensures var all := Split(s, c);
      |r| <= |all| && r == all[..|r|] && forall k :: |r| <= k < |all| ==> all[k] == ""
    ensures c in s && r != [] ==> r[|r| - 1] != ""
  {
    if c !in s then
      SplitNoSeparator(s, c);
      [s]
    else DropTrailingEmpty(Split(s, c))
  }

  // ---------------------------------------------------------------------------
  // Trimming
  // ---------------------------------------------------------------------------

  /** String.trim removes every character up to and including the space, U+0020. */
  predicate IsTrimmed(ch: char) {
    ch <= ' '
  }

  /** How many characters trim cuts off the front of s. */
  function LeadingBlanks(s: string): (n: nat)
    ensures n <= |s|
    ensures forall k :: 0 <= k < n ==> IsTrimmed(s[k])
    ensures n < |s| ==> !IsTrimmed(s[n])
  {
    if s != [] && IsTrimmed(s[0]) then 1 + LeadingBlanks(s[1..]) else 0
  }

  /** How many characters trim cuts off the end of s. */
  function TrailingBlanks(s: string): (n: nat)
    ensures n <= |s|
    ensures forall k :: |s| - n <= k < |s| ==> IsTrimmed(s[k])
    ensures n < |s| ==> !IsTrimmed(s[|s| - n - 1])
  {
    if s != [] && IsTrimmed(s[|s| - 1]) then 1 + TrailingBlanks(s[..|s| - 1]) else 0
  }

  /**
   * String.trim: the leading blanks go first, then the trailing blanks of what is
   * left. What remains is the part of s between a run of blanks at the front and
   * one at the end, and it neither starts nor ends with a blank.
   */
  function Trim(s: string): (r: string)
    ensures var i := LeadingBlanks(s);
      && i + |r| <= |s| && r == s[i..i + |r|]
      && forall k :: i + |r| <= k < |s| ==> IsTrimmed(s[k])
    ensures r != [] ==> !IsTrimmed(r[0]) && !IsTrimmed(r[|r| - 1])
    ensures (forall k :: 0 <= k < |s| ==> IsTrimmed(s[k])) <==> r == []
  {
    var i := LeadingBlanks(s);
    var t := s[i..];
    var n := TrailingBlanks(t);
    assert i < |s| ==> t[0] == s[i];
    assert t[..|t| - n] == s[i..i + |t| - n];
    assert forall k :: i + |t| - n <= k < |s| ==> s[k] == t[k - i];
    t[..|t| - n]
  }

  // ---------------------------------------------------------------------------
  // Case-insensitive comparison
  // ---------------------------------------------------------------------------

  predicate IsAsciiLetter(ch: char) {
    'A' <= ch <= 'Z' || 'a' <= ch <= 'z'
  }

  /**
   * ASCII lower-casing: the result is never an upper-case letter, it is a letter
   * exactly when ch is, and anything but an upper-case letter is left alone.
   */
  function ToLower(ch: char): (r: char)
    ensures !('A' <= r <= 'Z')
    ensures 'a' <= r <= 'z' <==> IsAsciiLetter(ch)
    ensures !('A' <= ch <= 'Z') ==> r == ch
  {
    if 'A' <= ch <= 'Z' then (ch as int + 32) as char else ch
  }

  /** Two characters that are equal or the two cases of one ASCII letter. */
  predicate SameLetter(x: char, y: char) {
    x == y || (IsAsciiLetter(x) && IsAsciiLetter(y) && (x as int - y as int == 32 || y as int - x as int == 32))
  }

  /** Lower-casing identifies two characters exactly when they are the same letter up to case. */
  lemma ToLowerIdentifies(x: char, y: char)
    ensures ToLower(x) == ToLower(y) <==> SameLetter(x, y)
  {
    if 'A' <= x <= 'Z' {
      assert ToLower(x) as int == x as int + 32;
    }
    if 'A' <= y <= 'Z' {
      assert ToLower(y) as int == y as int + 32;
    }
  }

  /**
   * String.equalsIgnoreCase over ASCII: same length, equal once lower-cased. Equal
   * strings match, and matching strings have the same length.
   */
  function EqualsIgnoreCase(a: string, b: string): (r: bool)
    ensures a == b ==> r
    ensures r ==> |a| == |b|
  {
    |a| == |b| && forall i :: 0 <= i < |a| ==> ToLower(a[i]) == ToLower(b[i])
  }

  /** Character by character the same, up to the case of ASCII letters. */
  predicate SameLetters(a: string, b: string) {
    |a| == |b| && forall i :: 0 <= i < |a| ==> SameLetter(a[i], b[i])
  }

  /** equalsIgnoreCase holds exactly when the strings spell the same up to letter case. */
  lemma EqualsIgnoreCaseLetters(a: string, b: string)
    ensures EqualsIgnoreCase(a, b) <==> SameLetters(a, b)
  {
    if |a| == |b| {
      forall i | 0 <= i < |a| ensures ToLower(a[i]) == ToLower(b[i]) <==> SameLetter(a[i], b[i]) {
        ToLowerIdentifies(a[i], b[i]);
      }
    }
  }

  // ---------------------------------------------------------------------------
  // Decimal rendering
  // ---------------------------------------------------------------------------

  predicate IsDigit(ch: char) {
    '0' <= ch <= '9'
  }

  function DigitChar(d: nat): (ch: char)
    requires d < 10
    ensures IsDigit(ch) && ch as int - '0' as int == d
  {
    ('0' as int + d) as char
  }

  /** How an int prints in Java string concatenation, for non-negative values. */
  function NatToString(n: nat): (s: string)
    ensures s != [] && forall i :: 0 <= i < |s| ==> IsDigit(s[i])
  {
    if n < 10 then [DigitChar(n)] else NatToString(n / 10) + [DigitChar(n % 10)]
  }

  /** The number a non-empty run of digits stands for. */
  function DigitsValue(s: string): nat
    requires forall i :: 0 <= i < |s| ==> IsDigit(s[i])
  {
    if s == [] then 0
    else
      assert IsDigit(s[|s| - 1]);
      10 * DigitsValue(s[..|s| - 1]) + (s[|s| - 1] as int - '0' as int)
  }

  /** Reading back a decimal number: None unless s is a non-empty run of digits. */
  function ParseNat(s: string): (r: Option<nat>)
    ensures r.Some? <==> s != [] && forall i :: 0 <= i < |s| ==> IsDigit(s[i])
  {
    if s != [] && forall i :: 0 <= i < |s| ==> IsDigit(s[i]) then Some(DigitsValue(s)) else None
  }

  /** Rendering and reading back are inverse. */
  lemma {:induction false} ParseNatToString(n: nat)
    ensures ParseNat(NatToString(n)) == Some(n)
  {
    var s := NatToString(n);
    if n >= 10 {
      ParseNatToString(n / 10);
      assert s[..|s| - 1] == NatToString(n / 10);
      assert s[|s| - 1] as int - '0' as int == n % 10;
      assert DigitsValue(s) == 10 * (n / 10) + n % 10;
    } else {
      assert s[..|s| - 1] == [];
    }
  }

  /** Reading "major.minor" back: exactly one dot with a decimal number on each side. */
  function ParseVersion(s: string): Option<HttpVersion> {
    var parts := Split(s, '.');
    if |parts| != 2 then None
    else match (ParseNat(parts[0]), ParseNat(parts[1]))
      case (Some(major), Some(minor)) => Some(HttpVersion(major, minor))
      case _ => None
  }

  /** Two decimal numbers joined by a dot read back as the pair. */
  lemma ParseDottedPair(major: nat, minor: nat)
    ensures ParseVersion(NatToString(major) + "." + NatToString(minor)) == Some(HttpVersion(major, minor))
  {
    var a, b := NatToString(major), NatToString(minor);
    assert '.' !in a && '.' !in b;
    assert Join([a, b], '.') == a + "." + b;
    SplitJoin([a, b], '.');
    ParseNatToString(major);
    ParseNatToString(minor);
  }

  /**
   * "major.minor", as the handshake handler writes the HTTP_VERSION property: the
   * string determines the version it was made from.
   */
  function VersionToString(v: HttpVersion): (r: string)
    ensures ParseVersion(r) == Some(v)
  {
    ParseDottedPair(v.major, v.minor);
    NatToString(v.major) + "." + NatToString(v.minor)
  }
}
