// Decimal formatting as Python's `%0Nd` / `{n:0Nd}` produce it, the parser
// that reads such digits back, `int()` and `strip()` on text, and the
// character classes the validators use.

module Text {
  import opened Errors

  predicate IsDigit(c: char) { '0' <= c <= '9' }

  predicate AllDigits(s: string) { forall i :: 0 <= i < |s| ==> IsDigit(s[i]) }

  function DigitChar(d: nat): (c: char)
    requires d < 10
    ensures IsDigit(c) && c as int - '0' as int == d
  {
    ('0' as int + d) as char
  }

  function DigitValue(c: char): nat
    requires IsDigit(c)
  {
    c as int - '0' as int
  }

  /** The decimal digits of `n`, without leading zeros ("0" for zero). */
  function Digits(n: nat): (s: string)
    ensures |s| >= 1 && AllDigits(s)
    ensures n > 0 ==> s[0] != '0'
    decreases n
  {
    if n < 10 then [DigitChar(n)] else Digits(n / 10) + [DigitChar(n % 10)]
  }

  /** The number a string of digits denotes (leading zeros allowed). */
  function ValueOf(s: string): nat
    requires AllDigits(s)
  {
    if s == [] then 0 else ValueOf(s[..|s| - 1]) * 10 + DigitValue(s[|s| - 1])
  }

  lemma {:induction false} ValueOfDigits(n: nat)
    ensures ValueOf(Digits(n)) == n
    decreases n
  {
    var s := Digits(n);
    if n >= 10 {
      assert s[..|s| - 1] == Digits(n / 10);
      ValueOfDigits(n / 10);
    }
  }

  function Zeros(k: nat): (z: string)
    ensures |z| == k && AllDigits(z)
    ensures forall i :: 0 <= i < k ==> z[i] == '0'
  {
    seq(k, _ => '0')
  }

  /** Leading zeros do not change the value of a digit string. */
  lemma {:induction false} ValueOfZerosPrefix(k: nat, s: string)
    requires AllDigits(s)
    ensures AllDigits(Zeros(k) + s) && ValueOf(Zeros(k) + s) == ValueOf(s)
    decreases |s|
  {
    var t := Zeros(k) + s;
    assert AllDigits(t) by {
      forall i | 0 <= i < |t| ensures IsDigit(t[i]) {
        if i < k { assert t[i] == '0'; } else { assert t[i] == s[i - k]; }
      }
    }
    if s == [] {
      assert t == Zeros(k);
      ValueOfAllZeros(k);
    } else {
      assert t[..|t| - 1] == Zeros(k) + s[..|s| - 1];
      ValueOfZerosPrefix(k, s[..|s| - 1]);
    }
  }

  lemma {:induction false} ValueOfAllZeros(k: nat)
    ensures ValueOf(Zeros(k)) == 0
    decreases k
  {
    if k > 0 {
      assert Zeros(k)[..k - 1] == Zeros(k - 1);
      ValueOfAllZeros(k - 1);
    }
  }

  /** `s` left-padded with zeros to at least `width` characters. */
  function ZeroPad(s: string, width: nat): (r: string)
    ensures |r| == if |s| < width then width else |s|
  {
    if |s| < width then Zeros(width - |s|) + s else s
  }

  /** Python's zero-padded integer format `%0Nd`: the sign first, then the
      digits padded so that the whole text is at least `width` long. */
  function FormatInt(n: int, width: nat): (s: string)
    ensures |s| >= width
    ensures n >= 0 ==> AllDigits(s) && ValueOf(s) == n
    ensures n < 0 ==> |s| >= 2 && s[0] == '-' && AllDigits(s[1..]) && ValueOf(s[1..]) == -n
  {
    if n >= 0 then
      PaddedDigits(n, width);
      ZeroPad(Digits(n), width)
    else
      var w := if width > 0 then width - 1 else 0;
      PaddedDigits(-n, w);
      var s := "-" + ZeroPad(Digits(-n), w);
      assert s[1..] == ZeroPad(Digits(-n), w);
      s
  }

  /** The digits of n padded with zeros still read as n. */
  lemma PaddedDigits(n: nat, width: nat)
    ensures |ZeroPad(Digits(n), width)| >= 1
    ensures AllDigits(ZeroPad(Digits(n), width)) && ValueOf(ZeroPad(Digits(n), width)) == n
  {
    var d := Digits(n);
    var k := if |d| < width then width - |d| else 0;
    var z := Zeros(k) + d;
    assert AllDigits(z) && ValueOf(z) == n by {
      ValueOfDigits(n);
      ValueOfZerosPrefix(k, d);
    }
    assert ZeroPad(d, width) == z;
  }

  /** Number of leading digit characters of `s`. */
  function DigitRun(s: string): (k: nat)
    ensures k <= |s| && AllDigits(s[..k])
    ensures k < |s| ==> !IsDigit(s[k])
  {
    if s == [] || !IsDigit(s[0]) then 0
    else
      var k := 1 + DigitRun(s[1..]);
      assert forall i :: 1 <= i < k ==> s[..k][i] == s[1..][..k - 1][i - 1];
      k
  }

  /** Reads the leading run of digits of `s`: its value and the rest. */
  function ReadNat(s: string): (nat, string)
  {
    var k := DigitRun(s);
    (ValueOf(s[..k]), s[k..])
  }

  lemma {:induction false} DigitRunOfDigitsThen(d: string, rest: string)
    requires AllDigits(d)
    requires rest == [] || !IsDigit(rest[0])
    ensures DigitRun(d + rest) == |d|
    decreases |d|
  {
    if d != [] {
      assert (d + rest)[1..] == d[1..] + rest;
      DigitRunOfDigitsThen(d[1..], rest);
    } else {
      assert d + rest == rest;
    }
  }

  /** What `FormatInt` writes for a non-negative number, `ReadNat` reads
      back, whatever non-digit text follows. */
  lemma ReadFormatted(n: nat, width: nat, rest: string)
    requires rest == [] || !IsDigit(rest[0])
    ensures ReadNat(FormatInt(n, width) + rest) == (n, rest)
  {
    var f := FormatInt(n, width);
    DigitRunOfDigitsThen(f, rest);
    assert (f + rest)[..|f|] == f;
    assert (f + rest)[|f|..] == rest;
  }

  /** Python's `str.isspace` for one character. */
  predicate IsSpace(c: char)
  {
    ('\t' <= c <= '\r') || ('\U{1C}' <= c <= ' ') || c == '\U{85}' || c == '\U{A0}'
    || c == '\U{1680}' || ('\U{2000}' <= c <= '\U{200A}') || c == '\U{2028}'
    || c == '\U{2029}' || c == '\U{202F}' || c == '\U{205F}' || c == '\U{3000}'
  }

  /** `s.strip() == ""`. */
  predicate IsBlank(s: string) { forall i :: 0 <= i < |s| ==> IsSpace(s[i]) }

  /** ASCII case folding, the only folding that can produce the ASCII
      letters the validators compare against. */
  function LowerAscii(c: char): char
  {
    if 'A' <= c <= 'Z' then (c as int + 32) as char else c
  }

  /** `a.lower() == b` for an all-lower-case ASCII `b`. */
  predicate EqualsIgnoringCase(a: string, b: string)
  {
    |a| == |b| && forall i :: 0 <= i < |a| ==> LowerAscii(a[i]) == LowerAscii(b[i])
  }

  predicate StartsWith(s: string, p: string) { |p| <= |s| && s[..|p|] == p }

  /** `s.lstrip()`. */
  function StripStart(s: string): (t: string)
    ensures |t| <= |s| && t == s[|s| - |t|..]
    ensures t == [] || !IsSpace(t[0])
  {
    if s != [] && IsSpace(s[0]) then StripStart(s[1..]) else s
  }

  /** `s.rstrip()`. */
  function StripEnd(s: string): (t: string)
    ensures |t| <= |s| && t == s[..|t|]
    ensures t == [] || !IsSpace(t[|t| - 1])
  {
    if s != [] && IsSpace(s[|s| - 1]) then StripEnd(s[..|s| - 1]) else s
  }

  /** `s.strip()`: neither end of the result is white space. */
  function Strip(s: string): (t: string)
    ensures t == [] || (!IsSpace(t[0]) && !IsSpace(t[|t| - 1]))
  {
    var u := StripStart(s);
    var t := StripEnd(u);
    assert t != [] ==> t[0] == u[0];
    t
  }

  /** Text whose ends are not white space is its own strip. */
  lemma StripKeeps(s: string)
    requires s != [] && !IsSpace(s[0]) && !IsSpace(s[|s| - 1])
    ensures Strip(s) == s
  {
  }

  /** Leading white space is dropped up to the first other character. */
  lemma {:induction false} StripStartBlank(pre: string, s: string)
    requires IsBlank(pre) && s != [] && !IsSpace(s[0])
    ensures StripStart(pre + s) == s
    decreases |pre|
  {
    if pre != [] {
      assert (pre + s)[1..] == pre[1..] + s;
      StripStartBlank(pre[1..], s);
    }
  }

  /** Trailing white space is dropped back to the last other character. */
  lemma {:induction false} StripEndBlank(s: string, post: string)
    requires IsBlank(post) && s != [] && !IsSpace(s[|s| - 1])
    ensures StripEnd(s + post) == s
    decreases |post|
  {
    if post != [] {
      var p := post[..|post| - 1];
      assert (s + post)[..|s + post| - 1] == s + p;
      StripEndBlank(s, p);
    }
  }

  /** A core without white space at its ends, surrounded by white space,
      strips to the core. */
  lemma StripSurrounded(pre: string, s: string, post: string)
    requires IsBlank(pre) && IsBlank(post)
    requires s != [] && !IsSpace(s[0]) && !IsSpace(s[|s| - 1])
    ensures Strip(pre + s + post) == s
  {
    assert pre + s + post == pre + (s + post);
    StripStartBlank(pre, s + post);
    StripEndBlank(s, post);
  }

  /** `int(t)` on stripped text of the kind ffprobe prints: an optional
      sign and then ASCII decimal digits read as a number; any other such
      text raises, which is `None` here. Python's `int` also takes
      underscores between digits and non-ASCII decimal digits; those are
      `None` here. */
  function ParseInt(t: string): (r: Option<int>)
    ensures r.Some? ==> t != [] && !IsSpace(t[|t| - 1])
  {
    if t == [] then None
    else if t[0] == '-' || t[0] == '+' then
      var d := t[1..];
      if d != [] && AllDigits(d) then
        assert IsDigit(t[|t| - 1]) by { assert t[|t| - 1] == d[|d| - 1]; }
        var v: int := ValueOf(d);
        Some(if t[0] == '-' then -v else v)
      else None
    else if AllDigits(t) then
      assert IsDigit(t[|t| - 1]);
      Some(ValueOf(t))
    else None
  }

  /** What `FormatInt` writes, `ParseInt` reads back, and it is already
      stripped. */
  lemma ParseFormatted(n: int)
    ensures var s := FormatInt(n, 1); s != [] && !IsSpace(s[0]) && !IsSpace(s[|s| - 1])
    ensures Strip(FormatInt(n, 1)) == FormatInt(n, 1)
    ensures ParseInt(FormatInt(n, 1)) == Some(n)
  {
    var s := FormatInt(n, 1);
    if n < 0 {
      assert s[|s| - 1] == s[1..][|s| - 2];
    }
    StripKeeps(s);
  }
}
