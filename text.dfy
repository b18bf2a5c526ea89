/**
 * String helpers with Python's semantics: `str.isspace`, `str.strip`,
 * `str(n)` for naturals, zero padding as in `f"{n:02d}"`, substring
 * search (`sub in s`), ASCII case mapping and `"\n".join(lines)`
 * together with its inverse, `str.split("\n")`.
 */
module Text {

  /** Python's `str.isspace()` for a single character (the Unicode White_Space set). */
  predicate IsSpace(c: char) {
    || ('\U{0009}' <= c <= '\U{000D}')
    || ('\U{001C}' <= c <= ' ')
    || c == '\U{0085}' || c == '\U{00A0}' || c == '\U{1680}'
    || ('\U{2000}' <= c <= '\U{200A}')
    || c == '\U{2028}' || c == '\U{2029}' || c == '\U{202F}' || c == '\U{205F}' || c == '\U{3000}'
  }

  /** `not s.strip()`: the string is empty or made of whitespace only. */
  predicate IsBlank(s: string) {
    forall i :: 0 <= i < |s| ==> IsSpace(s[i])
  }

  /** Index of the first non-whitespace character (|s| if there is none). */
  function StartIndex(s: string): (a: nat)
    ensures a <= |s|
    ensures forall i :: 0 <= i < a ==> IsSpace(s[i])
    ensures a < |s| ==> !IsSpace(s[a])
    decreases |s|
  {
    if |s| == 0 || !IsSpace(s[0]) then 0 else 1 + StartIndex(s[1..])
  }

  /** One past the last non-whitespace character (0 if there is none). */
  function EndIndex(s: string): (b: nat)
    ensures b <= |s|
    ensures forall i :: b <= i < |s| ==> IsSpace(s[i])
    ensures b > 0 ==> !IsSpace(s[b - 1])
    decreases |s|
  {
    if |s| == 0 || !IsSpace(s[|s| - 1]) then |s| else EndIndex(s[..|s| - 1])
  }

  /**
   * Python's `s.strip()`: the slice of `s` left after removing leading and
   * trailing whitespace. The result neither starts nor ends with whitespace,
   * and only whitespace was removed on either side.
   */
  function Strip(s: string): (r: string)
    ensures |r| <= |s|
    ensures r == [] || (!IsSpace(r[0]) && !IsSpace(r[|r| - 1]))
    ensures exists a, b ::
      (0 <= a <= b <= |s| && r == s[a..b] && IsBlank(s[..a]) && IsBlank(s[b..]))
  {
    var a, b := StartIndex(s), EndIndex(s);
    if a == |s| then
      assert s[..a] == s && IsBlank(s[..a]) && IsBlank(s[a..]);
      assert s[a..a] == [];
      []
    else
      assert a < b;
      assert IsBlank(s[..a]) && IsBlank(s[b..]);
      s[a..b]
  }

  /** `s.strip()` is empty exactly when `s` is blank. */
  lemma StripEmptyIffBlank(s: string)
    ensures Strip(s) == [] <==> IsBlank(s)
  {
    var a, b :| 0 <= a <= b <= |s| && Strip(s) == s[a..b] && IsBlank(s[..a]) && IsBlank(s[b..]);
    if Strip(s) == [] {
      forall i | 0 <= i < |s| ensures IsSpace(s[i]) {
        if i < a { assert s[..a][i] == s[i]; } else { assert s[b..][i - b] == s[i]; }
      }
    } else {
      assert !IsSpace(s[a]) by { assert Strip(s)[0] == s[a]; }
    }
  }

  /** Stripping twice is stripping once. */
  lemma StripIdempotent(s: string)
    ensures Strip(Strip(s)) == Strip(s)
  {
    var r := Strip(s);
    var a, b :| 0 <= a <= b <= |r| && Strip(r) == r[a..b] && IsBlank(r[..a]) && IsBlank(r[b..]);
    if r != [] {
      assert IsBlank(r[..a]) && IsBlank(r[b..]);
    }
  }

  /** `p` is a prefix of `s`. */
  predicate StartsWith(s: string, p: string) {
    |p| <= |s| && s[..|p|] == p
  }

  /** Python's `p in s` for strings: `p` occurs in `s` at some position. */
  predicate Contains(s: string, p: string)
    decreases |s|
  {
    StartsWith(s, p) || (|s| > 0 && Contains(s[1..], p))
  }

  /** `Contains` agrees with the positional definition of an occurrence. */
  lemma {:induction false} ContainsIffOccurs(s: string, p: string)
    ensures Contains(s, p) <==> exists i :: 0 <= i <= |s| - |p| && StartsWith(s[i..], p)
    decreases |s|
  {
    assert s[0..] == s;
    if |s| > 0 {
      ContainsIffOccurs(s[1..], p);
      if Contains(s[1..], p) {
        var i :| 0 <= i <= |s[1..]| - |p| && StartsWith(s[1..][i..], p);
        assert s[1..][i..] == s[i + 1..];
      }
      if exists i :: 0 <= i <= |s| - |p| && StartsWith(s[i..], p) {
        var i :| 0 <= i <= |s| - |p| && StartsWith(s[i..], p);
        if i > 0 {
          assert s[1..][i - 1..] == s[i..];
        }
      }
    }
  }

  /** A decimal digit character. */
  predicate IsDigit(c: char) {
    '0' <= c <= '9'
  }

  predicate AllDigits(s: string) {
    forall i :: 0 <= i < |s| ==> IsDigit(s[i])
  }

  function DigitChar(d: nat): (c: char)
    requires d < 10
    ensures IsDigit(c) && c as int - '0' as int == d
  {
    ('0' as int + d) as char
  }

  /** Python's `str(n)` for a natural number: decimal digits, no leading zero. */
  function NatToString(n: nat): (r: string)
    ensures |r| >= 1 && AllDigits(r)
    ensures r[0] == '0' ==> n == 0
    decreases n
  {
    if n < 10 then [DigitChar(n)] else NatToString(n / 10) + [DigitChar(n % 10)]
  }

  /** The value of a string of decimal digits (its inverse reading). */
  function ParseDigits(s: string): nat
    requires AllDigits(s)
    decreases |s|
  {
    if s == [] then 0 else ParseDigits(s[..|s| - 1]) * 10 + (s[|s| - 1] as int - '0' as int)
  }

  /** Reading back the decimal rendering gives the number. */
  lemma {:induction false} ParseNatToString(n: nat)
    ensures ParseDigits(NatToString(n)) == n
    decreases n
  {
    if n >= 10 {
      ParseNatToString(n / 10);
      var r := NatToString(n);
      assert r[..|r| - 1] == NatToString(n / 10);
    }
  }

  /** `count` copies of `c`. */
  function Repeat<T>(c: T, count: nat): (r: seq<T>)
    ensures |r| == count && forall i :: 0 <= i < count ==> r[i] == c
  {
    seq(count, _ => c)
  }

  /** Leading zeros do not change the value of a digit string. */
  lemma {:induction false} ParseLeadingZeros(z: nat, s: string)
    requires AllDigits(s)
    ensures AllDigits(Repeat('0', z) + s) && ParseDigits(Repeat('0', z) + s) == ParseDigits(s)
    decreases |s|
  {
    var t := Repeat('0', z) + s;
    if s == [] {
      assert t == Repeat('0', z);
      ZerosParseToZero(z);
    } else {
      ParseLeadingZeros(z, s[..|s| - 1]);
      assert t[..|t| - 1] == Repeat('0', z) + s[..|s| - 1];
    }
  }

  lemma {:induction false} ZerosParseToZero(z: nat)
    ensures ParseDigits(Repeat('0', z)) == 0
    decreases z
  {
    if z > 0 {
      ZerosParseToZero(z - 1);
      assert Repeat('0', z)[..z - 1] == Repeat('0', z - 1);
    }
  }

  /**
   * Python's `f"{n:0wd}"` for a natural: the decimal digits of `n`, with
   * zeros in front until there are at least `w` characters.
   */
  function ZeroPad(n: nat, w: nat): string
    decreases w
  {
    var d := NatToString(n);
    if w <= |d| then d else "0" + ZeroPad(n, w - 1)
  }

  /** The padded rendering has max(w, digits) digits and reads back as `n`. */
  lemma {:induction false} ZeroPadReadsBack(n: nat, w: nat)
    ensures var d := NatToString(n); |ZeroPad(n, w)| == if |d| < w then w else |d|
    ensures AllDigits(ZeroPad(n, w)) && ParseDigits(ZeroPad(n, w)) == n
    decreases w
  {
    var d := NatToString(n);
    if w <= |d| {
      ParseNatToString(n);
    } else {
      ZeroPadReadsBack(n, w - 1);
      var p := ZeroPad(n, w - 1);
      ParseLeadingZeros(1, p);
      assert Repeat('0', 1) == "0";
    }
  }

  /**
   * Python's `f"{n:0wd}"` for any integer: a negative number keeps its sign
   * in front and the zeros go between the sign and the digits.
   */
  function ZeroPadInt(n: int, w: nat): (r: string)
    ensures |r| >= w
    ensures n >= 0 ==> AllDigits(r) && ParseDigits(r) == n
    ensures n < 0 ==> |r| >= 2 && r[0] == '-' && AllDigits(r[1..]) && ParseDigits(r[1..]) == -n
  {
    if n >= 0 then
      ZeroPadReadsBack(n, w);
      ZeroPad(n, w)
    else
      var d := ZeroPad(-n, if w > 0 then w - 1 else 0);
      ZeroPadReadsBack(-n, if w > 0 then w - 1 else 0);
      assert ("-" + d)[1..] == d;
      "-" + d
  }

  /** Python's `str.lower()` on ASCII letters; other characters are kept. */
  function LowerChar(c: char): char {
    if 'A' <= c <= 'Z' then (c as int + 32) as char else c
  }

  /** Python's `str.upper()` on ASCII letters; other characters are kept. */
  function UpperChar(c: char): char {
    if 'a' <= c <= 'z' then (c as int - 32) as char else c
  }

  function Lower(s: string): (r: string)
    ensures |r| == |s| && forall i :: 0 <= i < |s| ==> r[i] == LowerChar(s[i])
  {
    seq(|s|, i requires 0 <= i < |s| => LowerChar(s[i]))
  }

  function Upper(s: string): (r: string)
    ensures |r| == |s| && forall i :: 0 <= i < |s| ==> r[i] == UpperChar(s[i])
  {
    seq(|s|, i requires 0 <= i < |s| => UpperChar(s[i]))
  }

  /** Python's `"\n".join(lines)`. */
  function JoinLines(lines: seq<string>): string
    decreases |lines|
  {
    if |lines| == 0 then ""
    else if |lines| == 1 then lines[0]
    else lines[0] + "\n" + JoinLines(lines[1..])
  }

  /** Python's `s.split("\n")`: never empty; the pieces contain no newline. */
  function SplitLines(s: string): (r: seq<string>)
    ensures |r| >= 1
    decreases |s|
  {
    if s == [] then [""]
    else
      var rest := SplitLines(s[1..]);
      if s[0] == '\n' then [""] + rest else [[s[0]] + rest[0]] + rest[1..]
  }

  /** A line written by JoinLines does not itself hold a newline. */
  predicate IsLine(s: string) {
    forall i :: 0 <= i < |s| ==> s[i] != '\n'
  }

  lemma {:induction false} SplitLineThenRest(a: string, rest: string)
    requires IsLine(a)
    ensures SplitLines(a + "\n" + rest) == [a] + SplitLines(rest)
    decreases |a|
  {
    if a == [] {
      assert a + "\n" + rest == ['\n'] + rest;
      assert (['\n'] + rest)[1..] == rest;
    } else {
      var s := a + "\n" + rest;
      assert s[1..] == a[1..] + "\n" + rest;
      SplitLineThenRest(a[1..], rest);
      assert [a[0]] + a[1..] == a;
    }
  }

  lemma {:induction false} SplitSingleLine(a: string)
    requires IsLine(a)
    ensures SplitLines(a) == [a]
    decreases |a|
  {
    if a != [] {
      SplitSingleLine(a[1..]);
      assert [a[0]] + a[1..] == a;
    }
  }

  /** Splitting the joined text at newlines gives back the lines. */
  lemma {:induction false} SplitJoinLines(lines: seq<string>)
    requires |lines| >= 1
    requires forall k :: 0 <= k < |lines| ==> IsLine(lines[k])
    ensures SplitLines(JoinLines(lines)) == lines
    decreases |lines|
  {
    if |lines| == 1 {
      SplitSingleLine(lines[0]);
    } else {
      SplitJoinLines(lines[1..]);
      SplitLineThenRest(lines[0], JoinLines(lines[1..]));
    }
  }
}
