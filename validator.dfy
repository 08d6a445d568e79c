/** The numeric-string validator `valid_number(text, integer)`. */
module Validator {
  import opened Common

  /** The characters the validator admits. */
  const Numbers: string := "0123456789."

  predicate IsDigit(c: char)
  {
    '0' <= c <= '9'
  }

  predicate AllDigits(s: string)
  {
    forall i :: 0 <= i < |s| ==> IsDigit(s[i])
  }

  predicate AtMostOneDot(s: string)
  {
    forall i, j :: 0 <= i < j < |s| && s[i] == '.' ==> s[j] != '.'
  }

  predicate HasDigit(s: string)
  {
    exists i :: 0 <= i < |s| && IsDigit(s[i])
  }

  /** What the validator accepts, stated directly: in integer mode only
      digits (so the empty string too); in decimal mode digits and at most one
      dot, with at least one digit somewhere. */
  predicate IsNumeral(s: string, integer: bool)
  {
    if integer then AllDigits(s)
    else (forall i :: 0 <= i < |s| ==> IsDigit(s[i]) || s[i] == '.') && AtMostOneDot(s) && HasDigit(s)
  }

  /** The number of dots in `s`, the loop's `dot_count`. */
  function DotCount(s: string): (n: nat)
    ensures n <= |s|
  {
    if s == [] then 0 else DotCount(s[..|s| - 1]) + (if s[|s| - 1] == '.' then 1 else 0)
  }

  lemma InNumbers(c: char)
    ensures c in Numbers <==> IsDigit(c) || c == '.'
  {
    if IsDigit(c) {
      assert Numbers[c as int - '0' as int] == c;
    } else if c == '.' {
      assert Numbers[10] == c;
    }
  }

  lemma {:induction false} DotCountZero(s: string)
    ensures DotCount(s) == 0 <==> forall k :: 0 <= k < |s| ==> s[k] != '.'
  {
    if s != [] {
      var init := s[..|s| - 1];
      DotCountZero(init);
      assert forall k :: 0 <= k < |init| ==> init[k] == s[k];
    }
  }

  lemma {:induction false} DotCountAtMostOne(s: string)
    ensures DotCount(s) <= 1 <==> AtMostOneDot(s)
  {
    if s != [] {
      var init := s[..|s| - 1];
      DotCountAtMostOne(init);
      DotCountZero(init);
      assert forall k :: 0 <= k < |init| ==> init[k] == s[k];
      if s[|s| - 1] == '.' && DotCount(init) == 1 {
        var i :| 0 <= i < |init| && init[i] == '.';
        assert s[i] == '.' && s[|s| - 1] == '.';
      }
    }
  }

  lemma {:induction false} DotCountAll(s: string)
    ensures DotCount(s) == |s| <==> forall k :: 0 <= k < |s| ==> s[k] == '.'
  {
    if s != [] {
      var init := s[..|s| - 1];
      DotCountAll(init);
      assert forall k :: 0 <= k < |init| ==> init[k] == s[k];
    }
  }

  /** The loop of `valid_number`: one pass sets a flag when a character lies
      outside "0123456789." and counts the dots; integer mode then asks for no
      dot, decimal mode for at most one dot and not only dots. */
  method ValidNumber(s: string, integer: bool) returns (valid: bool)
    ensures valid == IsNumeral(s, integer)
  {
    var allowed := true;
    var dotCount := 0;
    var i := 0;
    while i < |s|
      invariant 0 <= i <= |s|
      invariant allowed == (forall k :: 0 <= k < i ==> s[k] in Numbers)
      invariant dotCount == DotCount(s[..i])
    {
      if s[i] !in Numbers {
        allowed := false;
      }
      if s[i] == '.' {
        dotCount := dotCount + 1;
      }
      assert s[..i + 1][..i] == s[..i];
      i := i + 1;
    }
    assert s[..i] == s;
    forall k | 0 <= k < |s| {
      InNumbers(s[k]);
    }
    DotCountZero(s);
    DotCountAtMostOne(s);
    DotCountAll(s);
    if integer {
      valid := allowed && dotCount == 0;
    } else {
      valid := allowed && dotCount <= 1 && dotCount != |s|;
      if allowed && dotCount != |s| {
        var k :| 0 <= k < |s| && s[k] != '.';
        assert IsDigit(s[k]);
      }
    }
  }

  /** The edge cases of the validator. */
  lemma NumeralEdgeCases()
    ensures IsNumeral("", true) && !IsNumeral("", false)
    ensures !IsNumeral(".", false) && !IsNumeral(".", true)
    ensures !IsNumeral("1.2.3", false)
    ensures IsNumeral(".5", false) && IsNumeral("5.", false) && !IsNumeral("5.", true)
    ensures !IsNumeral("-1", true) && !IsNumeral("-1", false)
  {
    assert "."[0] == '.';
    assert ".5"[1] == '5';
    assert "5."[1] == '.';
    assert "5."[0] == '5';
    assert "1.2.3"[1] == '.' && "1.2.3"[3] == '.';
    assert "-1"[0] == '-';
  }

  /** A sign character anywhere rejects the input in both modes: negative
      numbers are never accepted. */
  lemma SignRejected(s: string, k: nat)
    requires k < |s| && (s[k] == '-' || s[k] == '+')
    ensures !IsNumeral(s, true) && !IsNumeral(s, false)
  {
  }

  /** The sentinel "-" is never a number, so an existence check given "-"
      never reaches its lookup. */
  lemma DashIsNotNumeral()
    ensures !IsNumeral(Dash, true) && !IsNumeral(Dash, false)
  {
    assert Dash[0] == '-';
  }

  /** Every non-empty integer is also accepted as a decimal. */
  lemma IntegerIsDecimal(s: string)
    requires IsNumeral(s, true) && s != []
    ensures IsNumeral(s, false)
  {
    assert IsDigit(s[0]);
  }
}
