/**
 * The small pieces of Python's string handling the core relies on:
 * `str.lower()` on the ASCII names of enum members, `str(int)` and `int(str)`
 * (used to put an order's primary key into a gateway request and to read it
 * back from the gateway's response).
 */
module Text {
  import opened Wrappers

  predicate IsAsciiUpper(c: char) { 'A' <= c <= 'Z' }

  /** `c.lower()` for an ASCII letter; every other character is kept. */
  function LowerChar(c: char): (r: char)
    ensures IsAsciiUpper(c) ==> r as int == c as int + 32
    ensures !IsAsciiUpper(c) ==> r == c
  {
    if IsAsciiUpper(c) then (c as int + 32) as char else c
  }

  /** `s.lower()`, character by character. */
  function Lower(s: string): (r: string)
    ensures |r| == |s|
    ensures forall i :: 0 <= i < |s| ==> r[i] == LowerChar(s[i])
  {
    seq(|s|, i requires 0 <= i < |s| => LowerChar(s[i]))
  }

  predicate IsAsciiLower(c: char) { 'a' <= c <= 'z' }

  /** `c.upper()` for an ASCII letter; every other character is kept. */
  function UpperChar(c: char): (r: char)
    ensures IsAsciiLower(c) ==> r as int == c as int - 32
    ensures !IsAsciiLower(c) ==> r == c
  {
    if IsAsciiLower(c) then (c as int - 32) as char else c
  }

  /** `s.upper()`, character by character. */
  function Upper(s: string): (r: string)
    ensures |r| == |s|
    ensures forall i :: 0 <= i < |s| ==> r[i] == UpperChar(s[i])
  {
    seq(|s|, i requires 0 <= i < |s| => UpperChar(s[i]))
  }

  /** `s.lower() == t`, read character by character. */
  lemma LowerIs(s: string, t: string)
    requires |s| == |t|
    requires forall i :: 0 <= i < |s| ==> LowerChar(s[i]) == t[i]
    ensures Lower(s) == t
  {
  }

  predicate IsDigit(c: char) { '0' <= c <= '9' }

  predicate AllDigits(s: string) { forall i :: 0 <= i < |s| ==> IsDigit(s[i]) }

  function DigitChar(d: nat): (c: char)
    requires d < 10
    ensures IsDigit(c)
  {
    ('0' as int + d) as char
  }

  function DigitValue(c: char): nat
    requires IsDigit(c)
  {
    c as int - '0' as int
  }

  /** `str(n)` for a non-negative integer: its decimal digits, no leading zero. */
  function NatToDecimal(n: nat): (s: string)
    ensures |s| > 0 && AllDigits(s)
    ensures |s| > 1 ==> s[0] != '0'
    decreases n
  {
    if n < 10 then [DigitChar(n)] else NatToDecimal(n / 10) + [DigitChar(n % 10)]
  }

  /** `str(i)` for any integer. */
  function IntToDecimal(i: int): (s: string)
    ensures |s| > 0
    ensures i < 0 <==> s[0] == '-'
  {
    if i < 0 then "-" + NatToDecimal(-i) else NatToDecimal(i)
  }

  /** `str(v)` for an optional non-negative integer; None renders as "None". */
  function OptionalDecimal(v: Option<nat>): (s: string)
    ensures v.Some? ==> s == IntToDecimal(v.value)
    ensures v.None? ==> s == "None"
  {
    match v
    case None => "None"
    case Some(k) => IntToDecimal(k)
  }

  /** The value of a string of decimal digits, read most significant first. */
  function DigitsValue(s: string): nat
    requires AllDigits(s)
  {
    if s == [] then 0 else DigitsValue(s[..|s| - 1]) * 10 + DigitValue(s[|s| - 1])
  }

  /**
   * A character `int()` skips around its argument: the ASCII whitespace
   * and separators (tab to carriage return, the four information
   * separators, space) and the other Unicode white space.
   */
  predicate IsPySpace(c: char)
  {
    || (9 <= c as int <= 13) || (28 <= c as int <= 32)
    || c as int == 0x85 || c as int == 0xA0 || c as int == 0x1680
    || (0x2000 <= c as int <= 0x200A) || c as int == 0x2028 || c as int == 0x2029
    || c as int == 0x202F || c as int == 0x205F || c as int == 0x3000
  }

  /** `s` without its leading white space. */
  function TrimStart(s: string): (r: string)
    ensures |r| <= |s| && r == s[|s| - |r|..]
    ensures forall i :: 0 <= i < |s| - |r| ==> IsPySpace(s[i])
    ensures |r| > 0 ==> !IsPySpace(r[0])
  {
    if |s| > 0 && IsPySpace(s[0]) then
      var r := TrimStart(s[1..]);
      assert forall i :: 1 <= i < |s| - |r| ==> s[i] == s[1..][i - 1];
      r
    else s
  }

  /** `s` without its trailing white space. */
  function TrimEnd(s: string): (r: string)
    ensures |r| <= |s| && r == s[..|r|]
    ensures forall i :: |r| <= i < |s| ==> IsPySpace(s[i])
    ensures |r| > 0 ==> !IsPySpace(r[|r| - 1])
  {
    if |s| > 0 && IsPySpace(s[|s| - 1]) then
      var r := TrimEnd(s[..|s| - 1]);
      assert forall i :: |r| <= i < |s| - 1 ==> s[i] == s[..|s| - 1][i];
      r
    else s
  }

  /** `s.strip()`: white space removed at both ends. */
  function Strip(s: string): (r: string)
    ensures |r| > 0 ==> !IsPySpace(r[0]) && !IsPySpace(r[|r| - 1])
  {
    TrimEnd(TrimStart(s))
  }

  /** Decimal digits with single underscores between them, as in `1_000`. */
  predicate IsUnderscoredDigits(s: string)
  {
    && |s| > 0 && IsDigit(s[0]) && IsDigit(s[|s| - 1])
    && (forall i :: 0 <= i < |s| ==> IsDigit(s[i]) || s[i] == '_')
    && (forall i :: 0 <= i < |s| - 1 ==> s[i] == '_' ==> s[i + 1] != '_')
  }

  /** The digits of `s` with its underscores left out. */
  function DropUnderscores(s: string): (r: string)
    requires forall i :: 0 <= i < |s| ==> IsDigit(s[i]) || s[i] == '_'
    ensures AllDigits(r) && |r| <= |s|
    ensures |s| > 0 && s[0] != '_' ==> |r| > 0 && r[0] == s[0]
  {
    if s == [] then [] else (if s[0] == '_' then [] else [s[0]]) + DropUnderscores(s[1..])
  }

  /** `int()` on an already stripped string: an optional sign, then digits with single underscores. */
  function ParseStripped(t: string): (r: Option<int>)
    ensures r.Some? ==> |t| > 0
    ensures r.Some? && r.value < 0 ==> t[0] == '-'
  {
    if |t| > 0 && (t[0] == '-' || t[0] == '+') then
      var body := t[1..];
      if IsUnderscoredDigits(body) then
        var magnitude: int := DigitsValue(DropUnderscores(body));
        Some(if t[0] == '-' then -magnitude else magnitude)
      else None
    else if IsUnderscoredDigits(t) then Some(DigitsValue(DropUnderscores(t)) as int)
    else None
  }

  /**
   * `int(s)` in base 10: white space around an optional sign and at least
   * one decimal digit, single underscores allowed between digits; anything
   * else is the ValueError Python raises (None here).
   */
  function ParseInt(s: string): (r: Option<int>)
    ensures r.Some? ==> |Strip(s)| > 0
    ensures r.Some? && r.value < 0 ==> Strip(s)[0] == '-'
  {
    ParseStripped(Strip(s))
  }

  /** A string without white space at its ends is its own strip. */
  lemma StripOfTrimmed(s: string)
    requires |s| > 0 && !IsPySpace(s[0]) && !IsPySpace(s[|s| - 1])
    ensures Strip(s) == s
  {
    assert TrimStart(s) == s;
  }

  lemma {:induction false} DropUnderscoresOfDigits(s: string)
    requires AllDigits(s)
    ensures DropUnderscores(s) == s
  {
    if s != [] {
      DropUnderscoresOfDigits(s[1..]);
      assert [s[0]] + s[1..] == s;
    }
  }

  lemma {:induction false} DigitsValueOfDecimal(n: nat)
    ensures DigitsValue(NatToDecimal(n)) == n
    decreases n
  {
    if n >= 10 {
      DigitsValueOfDecimal(n / 10);
      var s := NatToDecimal(n);
      assert s[..|s| - 1] == NatToDecimal(n / 10);
    }
  }

  /** The digits `str(n)` gives are read back as `n`. */
  lemma ParseStrippedOfNat(n: nat)
    ensures ParseStripped(NatToDecimal(n)) == Some(n)
  {
    var d := NatToDecimal(n);
    assert IsDigit(d[0]);
    assert IsUnderscoredDigits(d);
    DropUnderscoresOfDigits(d);
    DigitsValueOfDecimal(n);
  }

  /** The digits of `str(-n)` after its minus sign are read back as `-n`. */
  lemma ParseStrippedOfNegative(n: nat)
    ensures ParseStripped("-" + NatToDecimal(n)) == Some(-(n as int))
  {
    var d := NatToDecimal(n);
    assert ("-" + d)[1..] == d;
    ParseStrippedOfNat(n);
  }

  /** `str(i)` has no white space at its ends. */
  lemma DecimalIsTrimmed(i: int)
    ensures Strip(IntToDecimal(i)) == IntToDecimal(i)
  {
    var d := IntToDecimal(i);
    var n := NatToDecimal((if i < 0 then -i else i) as nat);
    assert d[|d| - 1] == n[|n| - 1];
    assert IsDigit(n[|n| - 1]);
    assert d[0] == '-' || IsDigit(d[0]);
    StripOfTrimmed(d);
  }

  /** `int(str(i)) == i` for every integer. */
  lemma ParseIntOfDecimal(i: int)
    ensures ParseInt(IntToDecimal(i)) == Some(i)
  {
    DecimalIsTrimmed(i);
    if i < 0 {
      ParseStrippedOfNegative(-i);
    } else {
      ParseStrippedOfNat(i);
    }
  }

  lemma {:induction false} TrimStartSpacePrefix(pre: string, x: string)
    requires forall i :: 0 <= i < |pre| ==> IsPySpace(pre[i])
    ensures TrimStart(pre + x) == TrimStart(x)
  {
    if pre != [] {
      assert (pre + x)[1..] == pre[1..] + x;
      TrimStartSpacePrefix(pre[1..], x);
    } else {
      assert pre + x == x;
    }
  }

  lemma {:induction false} TrimEndSpaceSuffix(x: string, post: string)
    requires forall i :: 0 <= i < |post| ==> IsPySpace(post[i])
    ensures TrimEnd(x + post) == TrimEnd(x)
  {
    if post != [] {
      var p' := post[..|post| - 1];
      assert (x + post)[..|x + post| - 1] == x + p';
      TrimEndSpaceSuffix(x, p');
    } else {
      assert x + post == x;
    }
  }

  lemma {:induction false} TrimStartAppend(s: string, t: string)
    ensures TrimStart(s) != [] ==> TrimStart(s + t) == TrimStart(s) + t
    ensures TrimStart(s) == [] ==> TrimStart(s + t) == TrimStart(t)
  {
    if s != [] {
      assert (s + t)[1..] == s[1..] + t;
      TrimStartAppend(s[1..], t);
    } else {
      assert s + t == t;
    }
  }

  /** White space before and after the text does not change what `int()` reads. */
  lemma ParseIntIgnoresSurroundingSpace(pre: string, s: string, post: string)
    requires forall i :: 0 <= i < |pre| ==> IsPySpace(pre[i])
    requires forall i :: 0 <= i < |post| ==> IsPySpace(post[i])
    ensures ParseInt(pre + s + post) == ParseInt(s)
  {
    assert pre + s + post == pre + (s + post);
    TrimStartSpacePrefix(pre, s + post);
    TrimStartAppend(s, post);
    if TrimStart(s) != [] {
      TrimEndSpaceSuffix(TrimStart(s), post);
    } else {
      TrimStartSpacePrefix(post, []);
      assert post + [] == post;
    }
  }

  /** Underscores between digits are ignored: `int("1_000") == int("1000")`. */
  lemma ParseIntIgnoresUnderscores(s: string)
    requires IsUnderscoredDigits(s)
    ensures ParseInt(s) == ParseInt(DropUnderscores(s)) == Some(DigitsValue(DropUnderscores(s)))
  {
    var d := DropUnderscores(s);
    StripOfTrimmed(s);
    assert IsDigit(d[0]) && IsDigit(d[|d| - 1]);
    StripOfTrimmed(d);
    assert IsUnderscoredDigits(d);
    DropUnderscoresOfDigits(d);
  }

  lemma ParseStrippedRefusesDoubledUnderscore(t: string, j: int)
    requires 0 <= j < |t| - 1 && t[j] == '_' && t[j + 1] == '_'
    ensures ParseStripped(t) == None
  {
    if t[0] == '-' || t[0] == '+' {
      assert t[1..][j - 1] == '_' && t[1..][j] == '_';
    }
  }

  /** A text `int()` accepts never holds two underscores in a row. */
  lemma ParseIntRefusesDoubledUnderscore(s: string, i: int)
    requires 0 <= i < |s| - 1 && s[i] == '_' && s[i + 1] == '_'
    ensures ParseInt(s) == None
  {
    var u := TrimStart(s);
    var k := |s| - |u|;
    var t := TrimEnd(u);
    assert !IsPySpace('_');
    assert k <= i;
    assert u[i - k] == s[i] && u[i + 1 - k] == s[i + 1];
    assert i + 1 - k < |t|;
    assert t[i - k] == '_' && t[i + 1 - k] == '_';
    ParseStrippedRefusesDoubledUnderscore(t, i - k);
  }

  predicate StartsWith(s: string, prefix: string) { |prefix| <= |s| && s[..|prefix|] == prefix }

  predicate EndsWith(s: string, suffix: string) { |suffix| <= |s| && s[|s| - |suffix|..] == suffix }

  /** Distinct integers are rendered as distinct strings. */
  lemma DecimalInjective(i: int, j: int)
    requires IntToDecimal(i) == IntToDecimal(j)
    ensures i == j
  {
    ParseIntOfDecimal(i);
    ParseIntOfDecimal(j);
  }
}
