/**
 * The numeric text inputs of the measurement screens (weight, height, fitness): the sanitiser
 * applied on every change, and the validity checks that gate the submit button. The three
 * screens carry identical copies of the sanitiser and of the positive-number check.
 */
module NumericInput {
  import opened Wrappers
  import opened JsText

  /** `v.replace(/[^0-9.]/g, "")`: the digits and dots of v, in order. */
  function KeepNumeric(v: string): (r: string)
    ensures OnlyNumericChars(r) && |r| <= |v|
  {
    if v == [] then []
    else (if IsNumericChar(v[0]) then [v[0]] else []) + KeepNumeric(v[1..])
  }

  /** The filter keeps a string of digits and dots as it is. */
  lemma {:induction false} KeepNumericOfNumeric(v: string)
    requires OnlyNumericChars(v)
    ensures KeepNumeric(v) == v
  {
    if v != [] {
      assert OnlyNumericChars(v[1..]) by {
        forall i | 0 <= i < |v[1..]| ensures IsNumericChar(v[1..][i]) {
          assert v[1..][i] == v[i + 1];
        }
      }
      KeepNumericOfNumeric(v[1..]);
      assert [v[0]] + v[1..] == v;
    }
  }

  /** The index of the last '.', or -1 when there is none. */
  function LastDot(s: string): (k: int)
    ensures -1 <= k < |s|
    ensures k >= 0 ==> s[k] == '.'
    ensures forall j :: k < j < |s| ==> s[j] != '.'
  {
    if s == [] then -1
    else if s[|s| - 1] == '.' then |s| - 1
    else LastDot(s[..|s| - 1])
  }

  /**
   * `.replace(/(\..*)\./, "$1")`: the leftmost match starts at the first dot and, `.*` being
   * greedy, ends at the last one; "$1" puts back all of it but that last dot.
   */
  function DropExtraDot(s: string): (r: string)
    ensures DotCount(s) <= 1 ==> r == s
    ensures DotCount(s) >= 2 ==> |r| == |s| - 1 && DotCount(r) == DotCount(s) - 1
    ensures DotCount(s) >= 2 ==> FirstDot(s) < |r| && r[..FirstDot(s) + 1] == s[..FirstDot(s) + 1]
  {
    var i := FirstDot(s);
    var j := LastDot(s);
    TwoDotsIff(s);
    if i < j then
      DotCountAround(s, j);
      DotCountConcat(s[..j], s[j + 1..]);
      var r := s[..j] + s[j + 1..];
      assert r[..i + 1] == s[..i + 1];
      r
    else s
  }

  /** sanitize */
  function Sanitize(v: string): (r: string)
    ensures OnlyNumericChars(r)
  {
    var t := KeepNumeric(v);
    var r := DropExtraDot(t);
    assert OnlyNumericChars(r) by {
      var j := LastDot(t);
      if FirstDot(t) < j {
        forall i | 0 <= i < |r| ensures IsNumericChar(r[i]) {
          if i < j {
            assert r[i] == t[i];
          } else {
            assert r[i] == t[i + 1];
          }
        }
      }
    }
    r
  }

  /** The dots of s on either side of position j, and at j. */
  lemma DotCountAround(s: string, j: nat)
    requires j < |s|
    ensures DotCount(s) == DotCount(s[..j]) + (if s[j] == '.' then 1 else 0) + DotCount(s[j + 1..])
  {
    assert s == s[..j] + ([s[j]] + s[j + 1..]);
    DotCountConcat(s[..j], [s[j]] + s[j + 1..]);
    DotCountConcat([s[j]], s[j + 1..]);
    assert [s[j]][1..] == [];
  }

  /** The first dot comes before the last one exactly when there are at least two dots. */
  lemma TwoDotsIff(s: string)
    ensures FirstDot(s) < LastDot(s) <==> DotCount(s) >= 2
  {
    var j := LastDot(s);
    var i := FirstDot(s);
    if j >= 0 {
      DotCountAround(s, j);
      NoDotsIff(s[j + 1..]);
      NoDotsIff(s[..j]);
      if i < j {
        assert s[..j][i] == '.';
      } else {
        assert forall k :: 0 <= k < j ==> s[..j][k] == s[k];
      }
    } else {
      NoDotsIff(s);
    }
  }

  /** After the filter, a string with at most one dot is left unchanged. */
  lemma SanitizeKeepsOneDot(v: string)
    requires DotCount(KeepNumeric(v)) <= 1
    ensures Sanitize(v) == KeepNumeric(v)
  {
    TwoDotsIff(KeepNumeric(v));
  }

  /**
   * After the filter, a string with at least two dots loses exactly its last dot: the result is
   * the filtered text with that one character cut out, and has one dot less.
   */
  lemma SanitizeDropsLastDot(v: string)
    requires DotCount(KeepNumeric(v)) >= 2
    ensures var t := KeepNumeric(v);
            var j := LastDot(t);
            0 <= j && t[j] == '.' && (forall k :: j < k < |t| ==> t[k] != '.') &&
            Sanitize(v) == t[..j] + t[j + 1..] && DotCount(Sanitize(v)) == DotCount(t) - 1
  {
    var t := KeepNumeric(v);
    TwoDotsIff(t);
    var j := LastDot(t);
    DotCountAround(t, j);
    DotCountConcat(t[..j], t[j + 1..]);
  }

  /** Only the last dot goes, so a pasted text with three dots keeps two: "1.2.3.4" becomes "1.2.34". */
  lemma SanitizeKeepsTwoOfThreeDots(s: string)
    requires s == "1.2.3.4"
    ensures Sanitize(s) == "1.2.34"
    ensures DotCount(Sanitize(s)) == 2 && !IsValidNumber(Sanitize(s))
  {
    assert OnlyNumericChars(s);
    KeepNumericOfNumeric(s);
    SampleDots(s);
    assert s[..5] + s[6..] == "1.2.34";
  }

  /** Where the dots of "1.2.3.4" are. */
  lemma SampleDots(s: string)
    requires s == "1.2.3.4"
    ensures FirstDot(s) == 1 && LastDot(s) == 5 && DotCount(s) == 3
  {
    var t := "1.2.3.4";
    assert t[1..] == ".2.3.4" && t[1..][1..] == "2.3.4";
    assert t[..6] == "1.2.3." && t[..5] == "1.2.3";
    assert DotCount("3.4") == 1;
    assert FirstDot(t) == 1 && LastDot(t) == 5 && DotCount(t) == 3;
  }

  /**
   * isValidNumber: non-empty, and Number() of it is finite and greater than 0. That is a
   * digits-and-dots literal with at most one dot and a digit other than '0'.
   */
  function IsValidNumber(v: string): (b: bool)
    ensures b <==> OnlyNumericChars(v) && DotCount(v) <= 1 && HasNonZeroDigit(v)
  {
    DecimalPositiveIff(v);
    v != "" && DecimalNumber(v).Some? && DecimalNumber(v).value > 0.0
  }

  /**
   * The height screen's check: non-empty, and Number() of it is finite and within 20 to 96
   * inclusive. Every valid height is also a valid positive number.
   */
  function IsValidHeight(v: string): (b: bool)
    ensures b ==> IsValidNumber(v)
    ensures b ==> OnlyNumericChars(v) && DotCount(v) <= 1 && HasNonZeroDigit(v)
  {
    DecimalPositiveIff(v);
    v != "" && DecimalNumber(v).Some? && 20.0 <= DecimalNumber(v).value <= 96.0
  }

  /** The range is inclusive at both ends. */
  lemma HeightBoundsInclusive()
    ensures IsValidHeight("20") && IsValidHeight("96")
  {
    assert OnlyNumericChars("20") && OnlyNumericChars("96");
    assert DotCount("20") == 0 && DotCount("96") == 0;
    assert FirstDot("20") == 2 && FirstDot("96") == 2;
    assert "20"[..1] == "2" && "96"[..1] == "9";
    assert DigitsValue("2") == 2 && DigitsValue("9") == 9;
    assert DigitsValue("20") == 20 && DigitsValue("96") == 96;
    assert DecimalNumber("20") == Some(20.0);
    assert DecimalNumber("96") == Some(96.0);
  }

  /** Just past either end is rejected, fractional part included. */
  lemma HeightBoundsExclusive()
    ensures !IsValidHeight("97") && !IsValidHeight("19.5")
  {
    assert OnlyNumericChars("97") && OnlyNumericChars("19.5");
    assert DotCount("97") == 0 && DotCount("19.5") == 1;
    assert FirstDot("97") == 2 && FirstDot("19.5") == 2;
    assert "19.5"[..2] == "19" && "19.5"[3..] == "5";
    assert "97"[..1] == "9" && "19"[..1] == "1";
    assert DigitsValue("9") == 9 && DigitsValue("1") == 1;
    assert DigitsValue("97") == 97 && DigitsValue("19") == 19 && DigitsValue("5") == 5;
    assert DecimalNumber("97") == Some(97.0);
    assert DecimalNumber("19.5") == Some(19.5);
  }
}
