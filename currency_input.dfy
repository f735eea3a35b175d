/** components/CurrencyInput.tsx: the masked amount field. Every keystroke is
    reduced to its decimal digits before it reaches the bound form field, and a
    non-empty field is shown through a locale number formatter. */
module CurrencyInput {
  import opened Sequences

  predicate IsDigit(c: char)
  {
    '0' <= c <= '9'
  }

  predicate AllDigits(s: string)
  {
    forall i :: 0 <= i < |s| ==> IsDigit(s[i])
  }

  predicate HasDigit(s: string)
  {
    exists i :: 0 <= i < |s| && IsDigit(s[i])
  }

  /** The value `handleInputChange` hands to `onChange`: the raw text with every
      character outside `[0-9]` removed (`replace(/[^0-9]/g, '')`). Only digits
      remain, every digit of the input survives as often as it occurred, and the
      survivors keep their order. */
  function DigitsOnly(raw: string): (value: string)
    ensures AllDigits(value)
    ensures |value| <= |raw|
    ensures IsSubsequence(value, raw)
    ensures forall c | IsDigit(c) :: multiset(value)[c] == multiset(raw)[c]
  {
    if raw == [] then []
    else
      assert raw == [raw[0]] + raw[1..];
      var rest := DigitsOnly(raw[1..]);
      if IsDigit(raw[0]) then
        assert ([raw[0]] + rest)[1..] == rest;
        [raw[0]] + rest
      else
        rest
  }

  /** A text is left alone by the filter exactly when it is digits only. */
  lemma {:induction false} DigitsOnlyFixedPoint(s: string)
    ensures DigitsOnly(s) == s <==> AllDigits(s)
  {
    if s != [] && AllDigits(s) {
      DigitsOnlyFixedPoint(s[1..]);
      assert s == [s[0]] + s[1..];
    }
  }

  /** Filtering twice is filtering once. */
  lemma DigitsOnlyIdempotent(raw: string)
    ensures DigitsOnly(DigitsOnly(raw)) == DigitsOnly(raw)
  {
    DigitsOnlyFixedPoint(DigitsOnly(raw));
  }

  /** The filter works character by character: filtering pasted or typed text
      piecewise gives the same value as filtering it whole. */
  lemma {:induction false} DigitsOnlyConcat(a: string, b: string)
    ensures DigitsOnly(a + b) == DigitsOnly(a) + DigitsOnly(b)
  {
    if a == [] {
      assert a + b == b;
    } else {
      assert (a + b)[0] == a[0];
      assert (a + b)[1..] == a[1..] + b;
      DigitsOnlyConcat(a[1..], b);
    }
  }

  /** The filter yields the empty value exactly when the input holds no digit. */
  lemma DigitsOnlyEmptyIff(raw: string)
    ensures DigitsOnly(raw) == "" <==> !HasDigit(raw)
  {
  }

  /** `formattedValue`: the empty value is shown as the empty string; any other
      value goes through the locale formatter, which stands for
      `Intl.NumberFormat('vi-VN').format(Number(value))`. */
  function FormattedValue(value: string, format: string -> string): (shown: string)
    ensures value == "" ==> shown == ""
    ensures value != "" ==> shown == format(value)
  {
    if value != "" then format(value) else ""
  }

  /** After a keystroke the field shows nothing exactly when the typed text held
      no digit, given a formatter that never renders a number as empty text. */
  lemma DisplayEmptyAfterInput(raw: string, format: string -> string)
    requires forall v :: v != "" ==> format(v) != ""
    ensures FormattedValue(DigitsOnly(raw), format) == "" <==> !HasDigit(raw)
  {
  }
}
