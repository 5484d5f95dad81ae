/**
 * The Kotlin/JVM string operations the application relies on: `trim()`,
 * `startsWith`, `split("|")`, the decimal text of a `Long` and `toLong()`,
 * and 64-bit two's-complement arithmetic on `Long`.
 */
module KotlinText {
  import opened Wrappers

  // ---------------------------------------------------------------------
  // Whitespace and trim()

  /**
   * Kotlin's `Char.isWhitespace()` on the JVM: `Character.isWhitespace(c)`
   * or `Character.isSpaceChar(c)`. That is the ASCII controls TAB, LF, VT,
   * FF, CR and FS..US, and the Unicode space, line and paragraph separators.
   */
  predicate IsWhitespace(c: char) {
    var n := c as int;
    (0x09 <= n <= 0x0D) || (0x1C <= n <= 0x20) || n == 0xA0 || n == 0x1680 ||
    (0x2000 <= n <= 0x200A) || n == 0x2028 || n == 0x2029 || n == 0x202F ||
    n == 0x205F || n == 0x3000
  }

  predicate AllWhitespace(s: string) {
    forall i :: 0 <= i < |s| ==> IsWhitespace(s[i])
  }

  /** Drops the leading whitespace, one character at a time. */
  function TrimStart(s: string): string {
    if s == [] || !IsWhitespace(s[0]) then s else TrimStart(s[1..])
  }

  /** Drops the trailing whitespace, one character at a time. */
  function TrimEnd(s: string): string {
    if s == [] || !IsWhitespace(s[|s| - 1]) then s else TrimEnd(s[..|s| - 1])
  }

  /** `TrimStart` removes exactly the longest all-whitespace prefix. */
  lemma {:induction false} TrimStartSpec(s: string)
    ensures |TrimStart(s)| <= |s| && TrimStart(s) == s[|s| - |TrimStart(s)|..]
    ensures AllWhitespace(s[..|s| - |TrimStart(s)|])
    ensures TrimStart(s) == [] || !IsWhitespace(TrimStart(s)[0])
    decreases |s|
  {
    if s != [] && IsWhitespace(s[0]) {
      var r := TrimStart(s[1..]);
      TrimStartSpec(s[1..]);
      assert s[1..][..|s[1..]| - |r|] == s[1..|s| - |r|];
    }
  }

  /** `TrimEnd` removes exactly the longest all-whitespace suffix. */
  lemma {:induction false} TrimEndSpec(s: string)
    ensures |TrimEnd(s)| <= |s| && TrimEnd(s) == s[..|TrimEnd(s)|]
    ensures AllWhitespace(s[|TrimEnd(s)|..])
    ensures TrimEnd(s) == [] || !IsWhitespace(TrimEnd(s)[|TrimEnd(s)| - 1])
    decreases |s|
  {
    if s != [] && IsWhitespace(s[|s| - 1]) {
      var r := TrimEnd(s[..|s| - 1]);
      TrimEndSpec(s[..|s| - 1]);
      assert s[|r|..] == s[..|s| - 1][|r|..] + [s[|s| - 1]];
    }
  }

  /** Kotlin's `trim()`: whitespace removed from both ends. */
  function Trim(s: string): string {
    TrimEnd(TrimStart(s))
  }

  /**
   * Trim keeps a contiguous middle part of its input, removes only
   * whitespace, and leaves no whitespace at either end.
   */
  lemma TrimIsMiddle(s: string) returns (i: nat, j: nat)
    ensures i <= j <= |s| && Trim(s) == s[i..j]
    ensures AllWhitespace(s[..i]) && AllWhitespace(s[j..])
    ensures Trim(s) == [] || (!IsWhitespace(Trim(s)[0]) && !IsWhitespace(Trim(s)[|Trim(s)| - 1]))
  {
    var t := TrimStart(s);
    TrimStartSpec(s);
    TrimEndSpec(t);
    i := |s| - |t|;
    j := i + |TrimEnd(t)|;
    assert t[|TrimEnd(t)|..] == s[j..];
  }

  lemma {:induction false} TrimStartSkipsWhitespace(pre: string, s: string)
    requires AllWhitespace(pre)
    ensures TrimStart(pre + s) == TrimStart(s)
    decreases |pre|
  {
    if pre != [] {
      assert (pre + s)[1..] == pre[1..] + s;
      TrimStartSkipsWhitespace(pre[1..], s);
    } else {
      assert pre + s == s;
    }
  }

  lemma {:induction false} TrimEndSkipsWhitespace(s: string, post: string)
    requires AllWhitespace(post)
    ensures TrimEnd(s + post) == TrimEnd(s)
    decreases |post|
  {
    if post != [] {
      assert (s + post)[..|s + post| - 1] == s + post[..|post| - 1];
      TrimEndSkipsWhitespace(s, post[..|post| - 1]);
    } else {
      assert s + post == s;
    }
  }

  /** Appending text after a string whose leading whitespace was already dropped. */
  lemma {:induction false} TrimStartAppend(s: string, post: string)
    requires !AllWhitespace(s)
    ensures TrimStart(s + post) == TrimStart(s) + post
    decreases |s|
  {
    if IsWhitespace(s[0]) {
      assert (s + post)[1..] == s[1..] + post;
      var k :| 0 <= k < |s| && !IsWhitespace(s[k]);
      assert !IsWhitespace(s[1..][k - 1]);
      TrimStartAppend(s[1..], post);
    }
  }

  lemma {:induction false} TrimStartOfWhitespace(s: string)
    requires AllWhitespace(s)
    ensures TrimStart(s) == []
    decreases |s|
  {
    if s != [] {
      assert AllWhitespace(s[1..]);
      TrimStartOfWhitespace(s[1..]);
    }
  }

  /**
   * Whitespace added before or after a text never changes its trimmed form;
   * hence no verdict computed on `trim()` depends on such padding.
   */
  lemma TrimIgnoresPadding(pre: string, s: string, post: string)
    requires AllWhitespace(pre) && AllWhitespace(post)
    ensures Trim(pre + s + post) == Trim(s)
  {
    assert pre + s + post == pre + (s + post);
    TrimStartSkipsWhitespace(pre, s + post);
    if AllWhitespace(s) {
      assert AllWhitespace(s + post);
      TrimStartOfWhitespace(s + post);
      TrimStartOfWhitespace(s);
    } else {
      TrimStartAppend(s, post);
      TrimEndSkipsWhitespace(TrimStart(s), post);
    }
  }

  /** A text that is not blank once trimmed is not empty. */
  lemma TrimNonEmpty(s: string)
    requires Trim(s) != []
    ensures s != []
  {
    var i, j := TrimIsMiddle(s);
  }

  // ---------------------------------------------------------------------
  // length

  /** A character above U+FFFF, which a JVM string holds as a surrogate pair. */
  predicate IsSupplementary(c: char) {
    c as int > 0xFFFF
  }

  /** Kotlin's `String.length`: UTF-16 code units, two for a supplementary character. */
  function Utf16Length(s: string): (n: nat)
    ensures |s| <= n <= 2 * |s|
    ensures n == |s| <==> forall i :: 0 <= i < |s| ==> !IsSupplementary(s[i])
  {
    if s == [] then 0
    else
      var init := s[..|s| - 1];
      assert forall i :: 0 <= i < |init| ==> init[i] == s[i];
      (if IsSupplementary(s[|s| - 1]) then 2 else 1) + Utf16Length(init)
  }

  // ---------------------------------------------------------------------
  // startsWith and split

  /** Kotlin's case-sensitive `startsWith(prefix)`. */
  predicate StartsWith(s: string, prefix: string) {
    |prefix| <= |s| && s[..|prefix|] == prefix
  }

  /**
   * Kotlin's `split(sep)` for a one-character delimiter and no limit: every
   * occurrence separates two parts, and empty parts (also a trailing one)
   * are kept. The parts contain no separator and join back to the input.
   */
  function Split(s: string, sep: char): (parts: seq<string>)
    ensures |parts| >= 1
    ensures forall i :: 0 <= i < |parts| ==> sep !in parts[i]
    ensures Join(parts, sep) == s
  {
    if s == [] then [""]
    else
      var rest := Split(s[1..], sep);
      if s[0] == sep then
        assert Join([""] + rest, sep) == [sep] + Join(rest, sep);
        [""] + rest
      else
        var parts := [[s[0]] + rest[0]] + rest[1..];
        JoinConsHead(s[0], rest, sep);
        parts
  }

  /** The parts separated by `sep`, as Kotlin's string templates "$a|$b|$c" build them. */
  function Join(parts: seq<string>, sep: char): string
    requires |parts| >= 1
  {
    if |parts| == 1 then parts[0] else parts[0] + [sep] + Join(parts[1..], sep)
  }

  lemma JoinConsHead(c: char, parts: seq<string>, sep: char)
    requires |parts| >= 1
    ensures Join([[c] + parts[0]] + parts[1..], sep) == [c] + Join(parts, sep)
  {
    var ps := [[c] + parts[0]] + parts[1..];
    assert ps[1..] == parts[1..];
  }

  lemma {:induction false} SplitNoSeparator(s: string, sep: char)
    requires sep !in s
    ensures Split(s, sep) == [s]
    decreases |s|
  {
    if s != [] {
      assert sep !in s[1..];
      SplitNoSeparator(s[1..], sep);
    }
  }

  lemma {:induction false} SplitAtSeparator(p: string, rest: string, sep: char)
    requires sep !in p
    ensures Split(p + [sep] + rest, sep) == [p] + Split(rest, sep)
    decreases |p|
  {
    var s := p + [sep] + rest;
    if p == [] {
      assert s[1..] == rest;
    } else {
      assert s[1..] == p[1..] + [sep] + rest;
      assert sep !in p[1..];
      SplitAtSeparator(p[1..], rest, sep);
      assert [p[0]] + p[1..] == p;
    }
  }

  /** Splitting undoes joining when no part contains the separator. */
  lemma {:induction false} SplitJoin(parts: seq<string>, sep: char)
    requires |parts| >= 1
    requires forall i :: 0 <= i < |parts| ==> sep !in parts[i]
    ensures Split(Join(parts, sep), sep) == parts
    decreases |parts|
  {
    if |parts| == 1 {
      SplitNoSeparator(parts[0], sep);
    } else {
      SplitAtSeparator(parts[0], Join(parts[1..], sep), sep);
      SplitJoin(parts[1..], sep);
      assert [parts[0]] + parts[1..] == parts;
    }
  }

  // ---------------------------------------------------------------------
  // Long: range, wrap-around, decimal text and toLong()

  const LongMin: int := -0x8000_0000_0000_0000
  const LongMax: int := 0x7FFF_FFFF_FFFF_FFFF

  predicate IsLong(n: int) {
    LongMin <= n <= LongMax
  }

  /** The result of a 64-bit two's-complement operation whose exact value is `x`. */
  function WrapLong(x: int): (r: int)
    ensures IsLong(r)
    ensures IsLong(x) ==> r == x
    ensures (r - x) % 0x1_0000_0000_0000_0000 == 0
  {
    (x - LongMin) % 0x1_0000_0000_0000_0000 + LongMin
  }

  predicate IsDigit(c: char) {
    '0' <= c <= '9'
  }

  predicate AllDigits(s: string) {
    forall i :: 0 <= i < |s| ==> IsDigit(s[i])
  }

  function DigitChar(d: nat): (c: char)
    requires d < 10
    ensures IsDigit(c) && c as int - '0' as int == d
  {
    ('0' as int + d) as char
  }

  /** The decimal digits of a natural number, without leading zeros. */
  function NatToString(n: nat): (s: string)
    ensures |s| >= 1 && AllDigits(s)
    ensures |s| > 1 ==> s[0] != '0'
  {
    if n < 10 then [DigitChar(n)] else NatToString(n / 10) + [DigitChar(n % 10)]
  }

  /** Kotlin's `Long.toString()` ("$timestamp"): an optional '-' and the digits. */
  function LongToString(n: int): (s: string)
    ensures |s| >= 1
    ensures forall i :: 0 <= i < |s| ==> IsDigit(s[i]) || (i == 0 && s[i] == '-')
  {
    if n < 0 then "-" + NatToString(-n) else NatToString(n)
  }

  /** The number an all-digit string denotes (leading zeros allowed). */
  function DigitsValue(s: string): nat
    requires AllDigits(s)
  {
    if s == [] then 0
    else DigitsValue(s[..|s| - 1]) * 10 + (s[|s| - 1] as int - '0' as int)
  }

  /**
   * Kotlin's `String.toLong()` (Java's `Long.parseLong`): an optional '+' or
   * '-', at least one digit, and a value in the range of `Long`; `None`
   * stands for the NumberFormatException thrown otherwise.
   */
  function ParseLong(s: string): (r: Option<int>)
    ensures r.Some? ==> IsLong(r.value)
    ensures r.Some? ==> exists i :: 0 <= i < |s| && IsDigit(s[i])
  {
    if s == [] then None
    else if s[0] == '-' || s[0] == '+' then
      if |s| == 1 || !AllDigits(s[1..]) then None
      else
        assert IsDigit(s[1]) by { assert s[1] == s[1..][0]; }
        var d: int := DigitsValue(s[1..]);
        var v := if s[0] == '-' then -d else d;
        if IsLong(v) then Some(v) else None
    else if !AllDigits(s) then None
    else
      var v := DigitsValue(s);
      assert IsDigit(s[0]);
      if IsLong(v) then Some(v) else None
  }

  lemma {:induction false} NatToStringValue(n: nat)
    ensures DigitsValue(NatToString(n)) == n
  {
    if n >= 10 {
      var s := NatToString(n);
      assert s[..|s| - 1] == NatToString(n / 10);
      NatToStringValue(n / 10);
    }
  }

  /** `toLong()` reads back exactly the `Long` that `toString()` wrote. */
  lemma LongRoundTrip(n: int)
    requires IsLong(n)
    ensures ParseLong(LongToString(n)) == Some(n)
  {
    var s := LongToString(n);
    if n < 0 {
      assert s[1..] == NatToString(-n);
      NatToStringValue(-n);
    } else {
      NatToStringValue(n);
    }
  }

  /** A character other than a digit, except a leading sign, makes `toLong()` throw. */
  lemma ParseLongRejectsNonDigit(s: string, i: nat)
    requires i < |s| && !IsDigit(s[i])
    requires i == 0 ==> s[0] != '-' && s[0] != '+'
    ensures ParseLong(s) == None
  {
    if i > 0 && (s[0] == '-' || s[0] == '+') {
      assert !IsDigit(s[1..][i - 1]);
    }
  }

  /** A text without any digit (the empty text, a lone sign) makes `toLong()` throw. */
  lemma ParseLongRejectsNoDigit(s: string)
    requires forall i :: 0 <= i < |s| ==> !IsDigit(s[i])
    ensures ParseLong(s) == None
  {
  }

  /**
   * On digits after an optional sign, `toLong()` reads their value: a '+'
   * changes nothing, a '-' negates, and a value outside the range of `Long`
   * throws.
   */
  lemma ParseLongOfDigits(digits: string)
    requires digits != [] && AllDigits(digits)
    ensures ParseLong(digits) == if IsLong(DigitsValue(digits)) then Some(DigitsValue(digits) as int) else None
    ensures ParseLong("+" + digits) == ParseLong(digits)
    ensures ParseLong("-" + digits) == if IsLong(-(DigitsValue(digits) as int)) then Some(-(DigitsValue(digits) as int)) else None
  {
    assert IsDigit(digits[0]);
    assert ("+" + digits)[1..] == digits;
    assert ("-" + digits)[1..] == digits;
  }

  /** Leading zeros do not change the value of a digit string. */
  lemma {:induction false} LeadingZeroIgnored(digits: string)
    requires AllDigits(digits)
    ensures AllDigits("0" + digits) && DigitsValue("0" + digits) == DigitsValue(digits)
    decreases |digits|
  {
    var z := "0" + digits;
    if digits != [] {
      assert z[..|z| - 1] == "0" + digits[..|digits| - 1];
      assert AllDigits(digits[..|digits| - 1]);
      LeadingZeroIgnored(digits[..|digits| - 1]);
    }
  }

  /** A decimal text outside the range of `Long`, negative or positive, makes `toLong()` throw. */
  lemma ParseLongOutOfRange(n: int)
    requires !IsLong(n)
    ensures ParseLong(LongToString(n)) == None
  {
    var s := LongToString(n);
    if n < 0 {
      assert s[1..] == NatToString(-n);
      NatToStringValue(-n);
      ParseLongOfDigits(s[1..]);
      assert s == "-" + s[1..];
    } else {
      NatToStringValue(n);
      ParseLongOfDigits(s);
    }
  }

  /** Texts `toLong()` accepts: a '+' sign, a negative zero, leading zeros. */
  lemma ParseLongAcceptedExamples()
    ensures ParseLong("+5") == Some(5)
    ensures ParseLong("-0") == Some(0)
    ensures ParseLong("007") == Some(7)
  {
    ParseLongOfDigits("5");
    assert "+5" == "+" + "5";
    ParseLongOfDigits("0");
    assert "-0" == "-" + "0";
    LeadingZeroIgnored("7");
    LeadingZeroIgnored("07");
    assert "007" == "0" + ("0" + "7");
    ParseLongOfDigits("007");
  }

  /** Texts `toLong()` rejects: no digit, a letter, a leading space, a doubled sign. */
  lemma ParseLongRejectedExamples()
    ensures ParseLong("") == None && ParseLong("-") == None
    ensures ParseLong("1a") == None && ParseLong(" 1") == None && ParseLong("--1") == None
  {
    ParseLongRejectsNonDigit("1a", 1);
    ParseLongRejectsNonDigit(" 1", 0);
    ParseLongRejectsNonDigit("--1", 1);
  }
}
