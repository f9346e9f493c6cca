/**
 * The JavaScript string and number primitives the application's logic relies on:
 * String.prototype.trim, ASCII toLowerCase / toUpperCase, includes, split, padStart,
 * String(n) for integers, parseInt and Number() on the digit-and-dot strings the
 * numeric inputs produce. JavaScript's NaN is represented by None.
 */
module JsText {
  import opened Wrappers

  // ---------------------------------------------------------------- white space

  /** The WhiteSpace and LineTerminator characters of ECMAScript, which trim() and parseInt skip. */
  predicate IsJsSpace(c: char) {
    c == ' ' || c == '\t' || c == '\n' || c == '\r' || c == '\U{B}' || c == '\U{C}' ||
    c == '\U{A0}' || c == '\U{1680}' || ('\U{2000}' <= c <= '\U{200A}') ||
    c == '\U{2028}' || c == '\U{2029}' || c == '\U{202F}' || c == '\U{205F}' ||
    c == '\U{3000}' || c == '\U{FEFF}'
  }

  predicate IsBlank(s: string) {
    forall i :: 0 <= i < |s| ==> IsJsSpace(s[i])
  }

  /** s without its leading white space. */
  function TrimStart(s: string): (r: string)
    ensures |r| <= |s| && r == s[|s| - |r|..]
    ensures IsBlank(s[..|s| - |r|])
    ensures r != [] ==> !IsJsSpace(r[0])
  {
    if s != [] && IsJsSpace(s[0]) then
      var t := s[1..];
      var r := TrimStart(t);
      var k := |s| - |r|;
      assert IsBlank(s[..k]) by {
        assert IsBlank(t[..k - 1]);
        forall i | 0 <= i < k
          ensures IsJsSpace(s[..k][i])
        {
          if i > 0 {
            assert s[..k][i] == t[..k - 1][i - 1];
          }
        }
      }
      r
    else s
  }

  /** s without its trailing white space. */
  function TrimEnd(s: string): (r: string)
    ensures |r| <= |s| && r == s[..|r|]
    ensures IsBlank(s[|r|..])
    ensures r != [] ==> !IsJsSpace(r[|r| - 1])
  {
    if s != [] && IsJsSpace(s[|s| - 1]) then TrimEnd(s[..|s| - 1]) else s
  }

  /** String.prototype.trim. */
  function Trim(s: string): (r: string)
    ensures |r| <= |s|
    ensures r == [] <==> IsBlank(s)
    ensures r != [] ==> !IsJsSpace(r[0]) && !IsJsSpace(r[|r| - 1])
  {
    var t := TrimStart(s);
    var r := TrimEnd(t);
    assert r == [] ==> IsBlank(s) by {
      if r == [] {
        assert s == s[..|s| - |t|] + t;
        assert IsBlank(t[|r|..]);
      }
    }
    r
  }

  lemma TrimOfNonBlankCore(s: string)
    requires s != [] && !IsJsSpace(s[0]) && !IsJsSpace(s[|s| - 1])
    ensures Trim(s) == s
  {
  }

  // ---------------------------------------------------------------- ASCII case

  function LowerChar(c: char): char {
    if 'A' <= c <= 'Z' then (c as int + 32) as char else c
  }

  function UpperChar(c: char): char {
    if 'a' <= c <= 'z' then (c as int - 32) as char else c
  }

  /** toLowerCase, for the ASCII letters. */
  function ToLower(s: string): (r: string)
    ensures |r| == |s|
    ensures forall i :: 0 <= i < |s| ==> !('A' <= r[i] <= 'Z')
    ensures forall i :: 0 <= i < |s| && !('A' <= s[i] <= 'Z') ==> r[i] == s[i]
  {
    seq(|s|, i requires 0 <= i < |s| => LowerChar(s[i]))
  }

  /** toUpperCase, for the ASCII letters. */
  function ToUpper(s: string): (r: string)
    ensures |r| == |s|
    ensures forall i :: 0 <= i < |s| ==> !('a' <= r[i] <= 'z')
    ensures forall i :: 0 <= i < |s| && !('a' <= s[i] <= 'z') ==> r[i] == s[i]
  {
    seq(|s|, i requires 0 <= i < |s| => UpperChar(s[i]))
  }

  /** charAt(0): the first character, or "" for the empty string. */
  function CharAt0(s: string): (r: string)
    ensures |r| <= 1
  {
    if s == [] then "" else [s[0]]
  }

  // ---------------------------------------------------------------- includes

  predicate StartsWith(s: string, prefix: string) {
    |prefix| <= |s| && s[..|prefix|] == prefix
  }

  /** part occurs in s at index i. */
  predicate OccursAt(s: string, part: string, i: int) {
    0 <= i <= |s| - |part| && s[i..i + |part|] == part
  }

  /** String.prototype.includes: part occurs somewhere in s. */
  predicate Includes(s: string, part: string) {
    exists i :: 0 <= i <= |s| && OccursAt(s, part, i)
  }

  /** The empty string is included in every string. */
  lemma IncludesEmpty(s: string)
    ensures Includes(s, "")
  {
    assert OccursAt(s, "", 0);
  }

  /** A string includes itself, and every prefix of it. */
  lemma IncludesPrefix(s: string, k: nat)
    requires k <= |s|
    ensures Includes(s, s[..k])
  {
    assert OccursAt(s, s[..k], 0);
  }

  // ---------------------------------------------------------------- digits

  predicate IsDigit(c: char) {
    '0' <= c <= '9'
  }

  predicate AllDigits(s: string) {
    forall i :: 0 <= i < |s| ==> IsDigit(s[i])
  }

  function DigitValue(c: char): nat
    requires IsDigit(c)
  {
    c as int - '0' as int
  }

  function DigitChar(d: nat): (c: char)
    requires d < 10
    ensures IsDigit(c) && DigitValue(c) == d
  {
    ('0' as int + d) as char
  }

  /** The value of a string of decimal digits, most significant digit first. */
  function DigitsValue(s: string): nat
    requires AllDigits(s)
  {
    if s == [] then 0 else 10 * DigitsValue(s[..|s| - 1]) + DigitValue(s[|s| - 1])
  }

  function Pow10(k: nat): (r: nat)
    ensures r >= 1
  {
    if k == 0 then 1 else 10 * Pow10(k - 1)
  }

  /** A digit string of length k denotes less than 10^k. */
  lemma {:induction false} DigitsValueBound(s: string)
    requires AllDigits(s)
    ensures DigitsValue(s) < Pow10(|s|)
  {
    if s != [] {
      DigitsValueBound(s[..|s| - 1]);
    }
  }

  /** Some character of s is one of the digits '1' to '9'. */
  predicate HasNonZeroDigit(s: string) {
    exists i :: 0 <= i < |s| && '1' <= s[i] <= '9'
  }

  lemma HasNonZeroDigitConcat(a: string, b: string)
    ensures HasNonZeroDigit(a + b) <==> HasNonZeroDigit(a) || HasNonZeroDigit(b)
  {
    if HasNonZeroDigit(a + b) {
      var i :| 0 <= i < |a + b| && '1' <= (a + b)[i] <= '9';
      if i >= |a| {
        assert '1' <= b[i - |a|] <= '9';
      }
    }
    if HasNonZeroDigit(a) {
      var i :| 0 <= i < |a| && '1' <= a[i] <= '9';
      assert (a + b)[i] == a[i];
    }
    if HasNonZeroDigit(b) {
      var i :| 0 <= i < |b| && '1' <= b[i] <= '9';
      assert (a + b)[|a| + i] == b[i];
    }
  }

  /** A digit string denotes a positive number exactly when one of its digits is not '0'. */
  lemma {:induction false} DigitsValuePositive(s: string)
    requires AllDigits(s)
    ensures DigitsValue(s) > 0 <==> HasNonZeroDigit(s)
  {
    if s != [] {
      var init := s[..|s| - 1];
      DigitsValuePositive(init);
      assert s == init + [s[|s| - 1]];
      HasNonZeroDigitConcat(init, [s[|s| - 1]]);
    }
  }

  /** Leading zeros do not change the value of a digit string. */
  lemma {:induction false} DigitsValueLeadingZero(s: string)
    requires AllDigits(s)
    ensures AllDigits("0" + s) && DigitsValue("0" + s) == DigitsValue(s)
  {
    if s != [] {
      var t := "0" + s;
      assert t[..|t| - 1] == "0" + s[..|s| - 1];
      DigitsValueLeadingZero(s[..|s| - 1]);
    }
  }

  /** String(n) for a natural number: its shortest decimal representation. */
  function NatToString(n: nat): (r: string)
    ensures r != [] && AllDigits(r) && DigitsValue(r) == n
    ensures n > 0 ==> r[0] != '0'
  {
    if n < 10 then [DigitChar(n)]
    else
      var prefix := NatToString(n / 10);
      var r := prefix + [DigitChar(n % 10)];
      assert r[..|r| - 1] == prefix;
      r
  }

  /** String(i) for an integer, with a leading '-' for a negative one. */
  function IntToString(i: int): (r: string)
    ensures r != [] && (i < 0 <==> r[0] == '-')
  {
    if i < 0 then "-" + NatToString(-i) else NatToString(i)
  }

  /** padStart(2, "0"). */
  function PadStart2(s: string): (r: string)
    ensures |r| == if |s| < 2 then 2 else |s|
    ensures r[|r| - |s|..] == s
    ensures forall i :: 0 <= i < |r| - |s| ==> r[i] == '0'
  {
    if |s| == 0 then "00" else if |s| == 1 then "0" + s else s
  }

  // ---------------------------------------------------------------- parseInt

  /** The longest prefix of s made of decimal digits. */
  function LeadingDigits(s: string): (r: string)
    ensures AllDigits(r) && |r| <= |s| && r == s[..|r|]
    ensures |r| < |s| ==> !IsDigit(s[|r|])
  {
    if s != [] && IsDigit(s[0]) then [s[0]] + LeadingDigits(s[1..]) else []
  }

  /** The part of parseInt after the white space and sign: the number its leading digits denote. */
  function SignedDigits(negative: bool, u: string): Option<int>
  {
    var ds := LeadingDigits(u);
    var v: int := if ds == [] then 0 else DigitsValue(ds);
    if ds == [] then None else Some(if negative then -v else v)
  }

  /**
   * parseInt(s, 10): skip leading white space, take an optional sign, then the longest run of
   * decimal digits; no digits gives NaN (None).
   */
  function ParseInt(s: string): (r: Option<int>)
    ensures r.Some? ==> exists i :: 0 <= i < |s| && IsDigit(s[i])
    ensures r.Some? && r.value < 0 ==> exists i :: 0 <= i < |s| && s[i] == '-'
  {
    SignedDigitsNeedDigit(s);
    var t := TrimStart(s);
    var hasSign := t != [] && (t[0] == '-' || t[0] == '+');
    SignedDigits(t != [] && t[0] == '-', if hasSign then t[1..] else t)
  }

  /** The digits and the minus sign parseInt reads are characters of its argument. */
  lemma SignedDigitsNeedDigit(s: string)
    ensures var t := TrimStart(s);
            var hasSign := t != [] && (t[0] == '-' || t[0] == '+');
            var r := SignedDigits(t != [] && t[0] == '-', if hasSign then t[1..] else t);
            (r.Some? ==> exists i :: 0 <= i < |s| && IsDigit(s[i])) &&
            (r.Some? && r.value < 0 ==> exists i :: 0 <= i < |s| && s[i] == '-')
  {
    var t := TrimStart(s);
    var hasSign := t != [] && (t[0] == '-' || t[0] == '+');
    var u := if hasSign then t[1..] else t;
    var start := |s| - |t| + (if hasSign then 1 else 0);
    assert u == s[start..];
    if LeadingDigits(u) != [] {
      assert u[0] == s[start];
    }
    if t != [] && t[0] == '-' {
      assert s[|s| - |t|] == '-';
    }
  }

  predicate IsHexDigit(c: char) {
    IsDigit(c) || 'a' <= c <= 'f' || 'A' <= c <= 'F'
  }

  function HexDigitValue(c: char): nat
    requires IsHexDigit(c)
  {
    if IsDigit(c) then DigitValue(c)
    else if 'a' <= c <= 'f' then c as int - 'a' as int + 10
    else c as int - 'A' as int + 10
  }

  function LeadingHexDigits(s: string): (r: string)
    ensures |r| <= |s| && r == s[..|r|]
    ensures forall i :: 0 <= i < |r| ==> IsHexDigit(r[i])
  {
    if s != [] && IsHexDigit(s[0]) then [s[0]] + LeadingHexDigits(s[1..]) else []
  }

  function HexValue(s: string): nat
    requires forall i :: 0 <= i < |s| ==> IsHexDigit(s[i])
  {
    if s == [] then 0 else 16 * HexValue(s[..|s| - 1]) + HexDigitValue(s[|s| - 1])
  }

  predicate HasHexPrefix(u: string) {
    |u| >= 2 && u[0] == '0' && (u[1] == 'x' || u[1] == 'X')
  }

  /** parseInt(s) with no radix: as ParseInt, except that a "0x" / "0X" prefix selects base 16. */
  function ParseIntAutoRadix(s: string): (r: Option<int>)
    ensures var t := TrimStart(s);
            var u := if t != [] && (t[0] == '-' || t[0] == '+') then t[1..] else t;
            !HasHexPrefix(u) ==> r == ParseInt(s)
    ensures r.Some? && r.value < 0 ==> exists i :: 0 <= i < |s| && s[i] == '-'
  {
    var t := TrimStart(s);
    var negative := t != [] && t[0] == '-';
    var u := if t != [] && (t[0] == '-' || t[0] == '+') then t[1..] else t;
    if HasHexPrefix(u) then
      var hs := LeadingHexDigits(u[2..]);
      var v: int := HexValue(hs);
      if hs == [] then None else Some(if negative then -v else v)
    else SignedDigits(negative, u)
  }

  /** Without a hexadecimal prefix the radix-less parseInt agrees with parseInt(s, 10). */
  lemma AutoRadixIsDecimalWithoutHexPrefix(s: string)
    requires !HasHexPrefix(s) && (s == [] || IsDigit(s[0]))
    ensures ParseIntAutoRadix(s) == ParseInt(s)
  {
    assert TrimStart(s) == s by {
      if s != [] {
        assert !IsJsSpace(s[0]);
      }
    }
  }

  /** On a string of decimal digits the radix-less parseInt agrees with parseInt(s, 10). */
  lemma AutoRadixOfDigits(s: string)
    requires AllDigits(s)
    ensures ParseIntAutoRadix(s) == ParseInt(s)
  {
    if |s| >= 2 {
      assert IsDigit(s[1]);
    }
    if s != [] {
      assert IsDigit(s[0]);
    }
    AutoRadixIsDecimalWithoutHexPrefix(s);
  }

  /** parseInt(ds + rest, 10) reads exactly the digits ds when rest does not start with a digit. */
  lemma {:induction false} ParseIntOfDigits(ds: string, rest: string)
    requires ds != [] && AllDigits(ds)
    requires rest == [] || !IsDigit(rest[0])
    ensures ParseInt(ds + rest) == Some(DigitsValue(ds))
  {
    var s := ds + rest;
    assert s[0] == ds[0] && IsDigit(s[0]);
    assert !IsJsSpace(s[0]);
    assert TrimStart(s) == s;
    LeadingDigitsOfConcat(ds, rest);
    assert SignedDigits(false, s) == Some(DigitsValue(ds));
  }

  lemma {:induction false} LeadingDigitsOfConcat(ds: string, rest: string)
    requires AllDigits(ds)
    requires rest == [] || !IsDigit(rest[0])
    ensures LeadingDigits(ds + rest) == ds
  {
    if ds != [] {
      assert (ds + rest)[1..] == ds[1..] + rest;
      LeadingDigitsOfConcat(ds[1..], rest);
    }
  }

  /** parseInt(String(n), 10) == n. */
  lemma ParseIntNatToString(n: nat)
    ensures ParseInt(NatToString(n)) == Some(n)
  {
    ParseIntOfDigits(NatToString(n), "");
    assert NatToString(n) + "" == NatToString(n);
  }

  /** parseInt(String(n).padStart(2, "0"), 10) == n. */
  lemma ParseIntPadded(n: nat)
    ensures ParseInt(PadStart2(NatToString(n))) == Some(n)
  {
    var s := NatToString(n);
    if |s| == 1 {
      DigitsValueLeadingZero(s);
      ParseIntOfDigits("0" + s, "");
      assert "0" + s + "" == PadStart2(s);
    } else {
      ParseIntNatToString(n);
    }
  }

  /** Padding a digit string keeps it all digits. */
  lemma PaddedDigits(s: string)
    requires AllDigits(s)
    ensures AllDigits(PadStart2(s))
  {
    var r := PadStart2(s);
    var k := |r| - |s|;
    forall i | 0 <= i < |r| ensures IsDigit(r[i]) {
      if i >= k {
        assert r[i] == r[k..][i - k];
      }
    }
  }

  /** The radix-less parseInt reads String(n) back as n. */
  lemma AutoRadixNatToString(n: nat)
    ensures ParseIntAutoRadix(NatToString(n)) == Some(n)
  {
    AutoRadixOfDigits(NatToString(n));
    ParseIntNatToString(n);
  }

  /** The radix-less parseInt reads String(n).padStart(2, "0") back as n. */
  lemma AutoRadixPadded(n: nat)
    ensures ParseIntAutoRadix(PadStart2(NatToString(n))) == Some(n)
  {
    PaddedDigits(NatToString(n));
    AutoRadixOfDigits(PadStart2(NatToString(n)));
    ParseIntPadded(n);
  }

  /** parseInt(String(i), 10) == i. */
  lemma ParseIntIntToString(i: int)
    ensures ParseInt(IntToString(i)) == Some(i)
  {
    if i < 0 {
      var s := "-" + NatToString(-i);
      assert TrimStart(s) == s;
      assert s[1..] == NatToString(-i);
      LeadingDigitsOfConcat(NatToString(-i), "");
      assert NatToString(-i) + "" == NatToString(-i);
    } else {
      ParseIntNatToString(i);
    }
  }

  // ---------------------------------------------------------------- split

  /** String.prototype.split with a one-character separator. */
  function Split(s: string, sep: char): (parts: seq<string>)
    ensures |parts| >= 1
  {
    if s == [] then [[]]
    else
      var rest := Split(s[1..], sep);
      if s[0] == sep then [[]] + rest
      else [[s[0]] + rest[0]] + rest[1..]
  }

  /** A string without the separator splits into itself alone. */
  lemma {:induction false} SplitWithoutSeparator(s: string, sep: char)
    requires sep !in s
    ensures Split(s, sep) == [s]
  {
    if s != [] {
      SplitWithoutSeparator(s[1..], sep);
      assert [s[0]] + s[1..] == s;
    }
  }

  /** Splitting a + [sep] + b, where a holds no separator, yields a followed by the parts of b. */
  lemma {:induction false} SplitAtSeparator(a: string, b: string, sep: char)
    requires sep !in a
    ensures Split(a + [sep] + b, sep) == [a] + Split(b, sep)
  {
    var s := a + [sep] + b;
    if a == [] {
      assert s == [sep] + b;
      assert s[1..] == b;
    } else {
      assert s[1..] == a[1..] + [sep] + b;
      SplitAtSeparator(a[1..], b, sep);
      assert [a[0]] + a[1..] == a;
    }
  }

  lemma SplitThree(a: string, b: string, c: string, sep: char)
    requires sep !in a && sep !in b && sep !in c
    ensures Split(a + [sep] + b + [sep] + c, sep) == [a, b, c]
  {
    SplitAtSeparator(a, b + [sep] + c, sep);
    assert a + [sep] + b + [sep] + c == a + [sep] + (b + [sep] + c);
    SplitAtSeparator(b, c, sep);
    SplitWithoutSeparator(c, sep);
  }

  lemma DigitsHaveNoSlash(s: string)
    requires AllDigits(s)
    ensures '/' !in s && '-' !in s
  {
    assert forall i :: 0 <= i < |s| ==> s[i] != '/' && s[i] != '-';
  }

  // ---------------------------------------------------------------- Number()

  predicate IsNumericChar(c: char) {
    IsDigit(c) || c == '.'
  }

  predicate OnlyNumericChars(s: string) {
    forall i :: 0 <= i < |s| ==> IsNumericChar(s[i])
  }

  /** The number of '.' characters in s. */
  function DotCount(s: string): nat {
    if s == [] then 0 else (if s[0] == '.' then 1 else 0) + DotCount(s[1..])
  }

  lemma {:induction false} DotCountConcat(a: string, b: string)
    ensures DotCount(a + b) == DotCount(a) + DotCount(b)
  {
    if a != [] {
      assert (a + b)[1..] == a[1..] + b;
      DotCountConcat(a[1..], b);
    } else {
      assert a + b == b;
    }
  }

  lemma {:induction false} NoDotsIff(s: string)
    ensures DotCount(s) == 0 <==> forall i :: 0 <= i < |s| ==> s[i] != '.'
  {
    if s != [] {
      NoDotsIff(s[1..]);
      assert forall i :: 1 <= i < |s| ==> s[1..][i - 1] == s[i];
    }
  }

  /** The index of the first '.', or |s| when there is none. */
  function FirstDot(s: string): (k: nat)
    ensures k <= |s|
    ensures forall i :: 0 <= i < k ==> s[i] != '.'
    ensures k < |s| ==> s[k] == '.'
  {
    if s == [] || s[0] == '.' then 0 else 1 + FirstDot(s[1..])
  }

  /** The dots of s are its first dot and the dots after it. */
  lemma {:induction false} DotCountFromFirst(s: string)
    requires FirstDot(s) < |s|
    ensures DotCount(s) == 1 + DotCount(s[FirstDot(s) + 1..])
  {
    if s[0] != '.' {
      DotCountFromFirst(s[1..]);
      assert s[1..][FirstDot(s[1..]) + 1..] == s[FirstDot(s) + 1..];
    }
  }

  /** With at most one dot, the text after the first dot holds none, and digits are on both sides. */
  lemma DecimalParts(s: string)
    requires OnlyNumericChars(s) && DotCount(s) <= 1
    ensures AllDigits(s[..FirstDot(s)])
    ensures FirstDot(s) < |s| ==> AllDigits(s[FirstDot(s) + 1..])
  {
    var k := FirstDot(s);
    if k < |s| {
      DotCountFromFirst(s);
      NoDotsIff(s[k + 1..]);
    }
  }

  /**
   * Number(s) for a string of digits and dots: the empty string is 0, a decimal literal with at
   * most one dot and at least one digit is its value, everything else is NaN (None). Strings with
   * any other character are outside this model and also give None.
   */
  function DecimalNumber(s: string): (r: Option<real>)
    ensures r.Some? <==> OnlyNumericChars(s) && DotCount(s) <= 1 && s != "."
    ensures r.Some? ==> r.value >= 0.0
  {
    if !OnlyNumericChars(s) || DotCount(s) > 1 then None
    else if s == [] then Some(0.0)
    else
      DecimalParts(s);
      var k := FirstDot(s);
      var whole := s[..k];
      var frac := if k < |s| then s[k + 1..] else "";
      assert whole == [] && frac == [] <==> s == "." by {
        if s == "." {
          assert FirstDot(s) == 0;
        }
      }
      if whole == [] && frac == [] then None
      else
        DecimalValuePositive(whole, frac);
        Some(DecimalValue(whole, frac))
  }

  /** The value of the decimal literal whole.frac. */
  function DecimalValue(whole: string, frac: string): real
    requires AllDigits(whole) && AllDigits(frac)
  {
    DigitsValue(whole) as real + DigitsValue(frac) as real / Pow10(|frac|) as real
  }

  lemma DecimalValuePositive(whole: string, frac: string)
    requires AllDigits(whole) && AllDigits(frac)
    ensures DecimalValue(whole, frac) >= 0.0
    ensures DecimalValue(whole, frac) > 0.0 <==> HasNonZeroDigit(whole) || HasNonZeroDigit(frac)
  {
    DigitsValuePositive(whole);
    DigitsValuePositive(frac);
    var b := DigitsValue(frac);
    FractionFacts(b, Pow10(|frac|));
    var w := DigitsValue(whole) as real;
    var f := b as real / Pow10(|frac|) as real;
    assert DecimalValue(whole, frac) == w + f;
    assert w >= 0.0 && f >= 0.0;
    assert w > 0.0 <==> HasNonZeroDigit(whole);
    assert f > 0.0 <==> HasNonZeroDigit(frac);
  }

  lemma FractionFacts(b: nat, p: nat)
    requires p >= 1
    ensures b as real / p as real >= 0.0
    ensures b > 0 ==> b as real / p as real > 0.0
    ensures b < p ==> b as real / p as real < 1.0
  {
    var q := b as real / p as real;
    assert q * p as real == b as real;
  }

  /**
   * Number(s) is a finite number greater than 0 exactly when s consists of digits and at most
   * one dot and has a digit other than '0'.
   */
  lemma {:induction false} DecimalPositiveIff(s: string)
    ensures (DecimalNumber(s).Some? && DecimalNumber(s).value > 0.0) <==>
            (OnlyNumericChars(s) && DotCount(s) <= 1 && HasNonZeroDigit(s))
  {
    if OnlyNumericChars(s) && DotCount(s) <= 1 && s != [] {
      DecimalParts(s);
      var k := FirstDot(s);
      var whole := s[..k];
      var frac := if k < |s| then s[k + 1..] else "";
      DecimalValuePositive(whole, frac);
      if k < |s| {
        assert s == whole + ([s[k]] + frac);
        HasNonZeroDigitConcat(whole, [s[k]] + frac);
        HasNonZeroDigitConcat([s[k]], frac);
        assert !HasNonZeroDigit([s[k]]);
      } else {
        assert s == whole;
      }
    }
  }
}
