/** The numeric text fields of the welcome and questions screens: the filter
    that keeps only the digits of what was typed, `parseInt` on the digit
    strings that filter produces, and the range test in [1, 999]. */
module NumericInput {
  import opened Wrappers

  /** The widest input the text fields accept (their `maxLength`). */
  const MaxInputLength := 3
  const MinSecret := 1
  const MaxSecret := 999

  predicate IsDigit(c: char)
  {
    '0' <= c <= '9'
  }

  predicate AllDigits(s: string)
  {
    forall i :: 0 <= i < |s| ==> IsDigit(s[i])
  }

  predicate AllZeros(s: string)
  {
    forall i :: 0 <= i < |s| ==> s[i] == '0'
  }

  /** `text.replace(/[^0-9]/g, '')`: the digits of `text`, in order. */
  function KeepDigits(text: string): (r: string)
    ensures AllDigits(r)
    ensures |r| <= |text|
    ensures forall c :: c in r <==> c in text && IsDigit(c)
    ensures AllDigits(text) ==> r == text
  {
    if text == [] then []
    else (if IsDigit(text[0]) then [text[0]] else []) + KeepDigits(text[1..])
  }

  /** The filter works character by character: filtering a concatenation
      concatenates the filtered parts, so the digits keep their order and
      their number. */
  lemma {:induction false} KeepDigitsConcat(a: string, b: string)
    ensures KeepDigits(a + b) == KeepDigits(a) + KeepDigits(b)
  {
    if a != [] {
      assert (a + b)[0] == a[0];
      assert (a + b)[1..] == a[1..] + b;
      KeepDigitsConcat(a[1..], b);
    } else {
      assert a + b == b;
    }
  }

  /** One character is kept exactly when it is a digit. */
  lemma KeepDigitsOne(c: char)
    ensures KeepDigits([c]) == if IsDigit(c) then [c] else []
  {
    assert [c][1..] == [];
  }

  /** Filtering twice is filtering once. */
  lemma KeepDigitsIdempotent(text: string)
    ensures KeepDigits(KeepDigits(text)) == KeepDigits(text)
  {
  }

  function DigitValue(c: char): (d: nat)
    requires IsDigit(c)
    ensures d <= 9
  {
    (c as int) - ('0' as int)
  }

  /** The decimal value of a digit string, most significant digit first. */
  function DecimalValue(s: string): nat
    requires AllDigits(s)
  {
    if s == [] then 0 else 10 * DecimalValue(s[..|s| - 1]) + DigitValue(s[|s| - 1])
  }

  function Pow10(n: nat): (p: nat)
    ensures p >= 1
  {
    if n == 0 then 1 else 10 * Pow10(n - 1)
  }

  /** `parseInt` on a digit-only string: NaN (here None) for the empty string,
      otherwise the decimal value, leading zeros ignored. */
  function ParseInt(s: string): (r: Option<nat>)
    requires AllDigits(s)
    ensures r.None? <==> s == []
    ensures r.Some? ==> r.value < Pow10(|s|)
    ensures r.Some? ==> (r.value == 0 <==> AllZeros(s))
  {
    if s == [] then None
    else
      DecimalValueBound(s);
      DecimalValueZero(s);
      Some(DecimalValue(s))
  }

  /** `num >= 1 && num <= 999` with `num = parseInt(s)`; both comparisons with
      NaN are false, so the empty string fails. */
  predicate IsValidNumber(s: string): (valid: bool)
    requires AllDigits(s)
    ensures valid ==> s != [] && !AllZeros(s)
  {
    match ParseInt(s)
    case None => false
    case Some(num) => num >= MinSecret && num <= MaxSecret
  }

  /** A digit string of n digits is worth less than 10^n. */
  lemma {:induction false} DecimalValueBound(s: string)
    requires AllDigits(s)
    ensures DecimalValue(s) < Pow10(|s|)
  {
    if s != [] {
      DecimalValueBound(s[..|s| - 1]);
    }
  }

  /** A digit string is worth zero exactly when every digit is '0'. */
  lemma {:induction false} DecimalValueZero(s: string)
    requires AllDigits(s)
    ensures DecimalValue(s) == 0 <==> AllZeros(s)
  {
    if s != [] {
      var init := s[..|s| - 1];
      DecimalValueZero(init);
      if AllZeros(s) {
        assert AllZeros(init);
      } else if AllZeros(init) {
        assert s[|s| - 1] != '0';
      }
    }
  }

  /** On what the filter and the three-character cap let through, the range
      test reduces to "non-empty and not all zeros": "0", "00" and "000" are
      rejected, and nothing of three digits can exceed 999. */
  lemma ValidIffNonZero(s: string)
    requires AllDigits(s) && |s| <= MaxInputLength
    ensures IsValidNumber(s) <==> s != [] && !AllZeros(s)
  {
    if s != [] {
      assert Pow10(|s|) <= 1000 by {
        assert Pow10(3) == 1000;
        if |s| < 3 {
          assert Pow10(|s|) <= 100;
        }
      }
    }
  }

  /** Leading zeros count for nothing in the value: "007" is 7. */
  lemma LeadingZerosIgnored()
    ensures ParseInt("007") == Some(7) && IsValidNumber("007")
    ensures !IsValidNumber("0") && !IsValidNumber("00") && !IsValidNumber("000")
  {
    assert DecimalValue("0") == 0;
    assert DecimalValue("00") == 0;
    assert DecimalValue("007") == 7;
  }
}
