/**
 * `formatPhoneNumber` of the SMS service: the number is reduced to its
 * digits and given the Indian country code `+91` unless it already carries
 * it as a 12-digit `91...` number.
 */
module PhoneFormat {
  import opened JsText

  /** `formatPhoneNumber`. The third test (`!formatted.startsWith('+91')`)
      is applied to a string of digits, which never starts with `+`. */
  function FormatPhoneNumber(phoneNumber: string): (r: string)
  {
    var formatted := KeepDigits(phoneNumber);
    if |formatted| == 10 then "+91" + formatted
    else if |formatted| == 12 && "91" <= formatted then "+" + formatted
    else if !("+91" <= formatted) then "+91" + formatted
    else formatted
  }

  /** Whether the number is `+91` plus ten digits as typed: ten digits, or
      twelve digits starting with `91`. */
  predicate HasNationalShape(digits: string)
  {
    |digits| == 10 || (|digits| == 12 && "91" <= digits)
  }

  /** The last branch is dead: every result is `+` followed by digits, the
      digits of the input follow `+` or `+91`, and only a 12-digit `91...`
      number is left without the added `91`. */
  lemma FormatShape(phoneNumber: string)
    ensures var d := KeepDigits(phoneNumber);
      var r := FormatPhoneNumber(phoneNumber);
      && |r| >= 1 && r[0] == '+' && AllDigits(r[1..])
      && (|d| == 12 && "91" <= d ==> r[1..] == d)
      && (!(|d| == 12 && "91" <= d) ==> r[1..] == "91" + d)
  {
    var d := KeepDigits(phoneNumber);
    NoPlusPrefix(d);
    if |d| == 12 && "91" <= d {
      PlusThenDigits(d);
    } else {
      DigitsAfter91(d);
      PlusThenDigits("91" + d);
      assert "+91" + d == "+" + ("91" + d);
    }
  }

  /** A string of digits never starts with `+91`. */
  lemma NoPlusPrefix(d: string)
    requires AllDigits(d)
    ensures !("+91" <= d)
  {
    assert |d| > 0 ==> d[0] != '+';
  }

  lemma PlusThenDigits(x: string)
    requires AllDigits(x)
    ensures var r := "+" + x; |r| >= 1 && r[0] == '+' && r[1..] == x && AllDigits(r[1..])
  {
    assert ("+" + x)[1..] == x;
  }

  lemma DigitsAfter91(d: string)
    requires AllDigits(d)
    ensures AllDigits("91" + d)
  {
    assert forall k :: 2 <= k < |"91" + d| ==> ("91" + d)[k] == d[k - 2];
  }

  /** Formatting `+` followed by digits looks only at those digits. */
  lemma FormatAfterPlus(x: string)
    requires AllDigits(x)
    ensures KeepDigits("+" + x) == x
  {
    var s := "+" + x;
    assert s[1..] == x;
    KeepDigitsNoop(x);
  }

  /** Formatting twice gives the same number exactly when the digits have
      the national shape; any other length gains a second `91`. */
  lemma FormatIdempotentIff(phoneNumber: string)
    ensures var r := FormatPhoneNumber(phoneNumber);
      FormatPhoneNumber(r) == r <==> HasNationalShape(KeepDigits(phoneNumber))
  {
    var d := KeepDigits(phoneNumber);
    var r := FormatPhoneNumber(phoneNumber);
    FormatShape(phoneNumber);
    assert r == "+" + r[1..];
    FormatAfterPlus(r[1..]);
    var d2 := r[1..];
    FormatShape(r);
    if |d| == 10 {
      assert |d2| == 12 && "91" <= d2;
      assert FormatPhoneNumber(r) == "+" + d2;
    } else if |d| == 12 && "91" <= d {
      assert d2 == d;
      assert FormatPhoneNumber(r) == "+" + d2;
    } else {
      assert d2 == "91" + d;
      assert !(|d2| == 12 && "91" <= d2);
      assert |FormatPhoneNumber(r)| == |d2| + 3 > |r|;
    }
  }
}
