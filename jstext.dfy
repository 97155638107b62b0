/**
 * String primitives of JavaScript and Python that the controllers rely on:
 * the `\s` character class of JavaScript regular expressions, `trim`,
 * `toUpperCase` (ASCII letters only), `indexOf`, `startsWith`, decimal
 * rendering of integers (`toString`) and Python's prefix slice `xs[:k]`.
 */
module JsText {

  /** The characters matched by `\s` in a JavaScript regular expression and
      removed by `String.prototype.trim`: WhiteSpace plus LineTerminator. */
  predicate IsJsWhitespace(c: char)
  {
    || c == '\t' || c == '\n' || c == '\U{B}' || c == '\U{C}' || c == '\r'
    || c == ' ' || c == '\U{A0}' || c == '\U{1680}'
    || ('\U{2000}' <= c <= '\U{200A}')
    || c == '\U{2028}' || c == '\U{2029}' || c == '\U{202F}' || c == '\U{205F}'
    || c == '\U{3000}' || c == '\U{FEFF}'
  }

  /** A JavaScript value read from a string-typed document field: absent
      (`undefined`), `null`, or a string. `===` on these is datatype
      equality. */
  datatype JsString = Undefined | Null | Str(s: string)

  /** JavaScript truthiness: only a non-empty string is truthy. */
  predicate Truthy(v: JsString)
  {
    v.Str? && v.s != ""
  }

  /** `String(v)`, as template literals and `RegExp.prototype.test` apply it. */
  function Interpolate(v: JsString): string
  {
    match v
    case Undefined => "undefined"
    case Null => "null"
    case Str(s) => s
  }

  /** `v || ""`. */
  function OrEmpty(v: JsString): (r: JsString)
    ensures r.Str? && (Truthy(v) ==> r == v) && (!Truthy(v) ==> r == Str(""))
  {
    if Truthy(v) then v else Str("")
  }

  /** `\d` and `[0-9]`. */
  predicate IsDigit(c: char)
  {
    '0' <= c <= '9'
  }

  /** `[A-Z]`. */
  predicate IsUpper(c: char)
  {
    'A' <= c <= 'Z'
  }

  predicate AllDigits(s: string)
  {
    forall i :: 0 <= i < |s| ==> IsDigit(s[i])
  }

  predicate NoWhitespace(s: string)
  {
    forall i :: 0 <= i < |s| ==> !IsJsWhitespace(s[i])
  }

  /** `s.replace(/\s+/g, '')`: every whitespace character is dropped. */
  function StripWhitespace(s: string): (r: string)
    ensures |r| <= |s|
    ensures NoWhitespace(r)
    ensures forall c :: c in r <==> c in s && !IsJsWhitespace(c)
  {
    if s == [] then []
    else if IsJsWhitespace(s[0]) then StripWhitespace(s[1..])
    else [s[0]] + StripWhitespace(s[1..])
  }

  /** Stripping works character by character: a whitespace character is
      dropped, any other is kept, and the pieces of a concatenation are
      stripped separately and kept in order. */
  lemma {:induction false} StripWhitespaceAppend(a: string, b: string)
    ensures StripWhitespace(a + b) == StripWhitespace(a) + StripWhitespace(b)
  {
    if a == [] {
      assert a + b == b;
    } else {
      assert (a + b)[1..] == a[1..] + b;
      StripWhitespaceAppend(a[1..], b);
    }
  }

  lemma StripWhitespaceChar(c: char)
    ensures StripWhitespace([c]) == if IsJsWhitespace(c) then [] else [c]
  {
    assert [c][1..] == [];
  }

  /** Stripping changes nothing in a string that holds no whitespace. */
  lemma {:induction false} StripWhitespaceNoop(s: string)
    requires NoWhitespace(s)
    ensures StripWhitespace(s) == s
  {
    if s != [] {
      StripWhitespaceNoop(s[1..]);
    }
  }

  /** `s.replace(/\D/g, '')`: every character other than 0-9 is dropped. */
  function KeepDigits(s: string): (r: string)
    ensures |r| <= |s|
    ensures AllDigits(r)
    ensures forall c :: c in r <==> c in s && IsDigit(c)
  {
    if s == [] then []
    else if IsDigit(s[0]) then [s[0]] + KeepDigits(s[1..])
    else KeepDigits(s[1..])
  }

  /** Digits are kept character by character, in order and with their
      repetitions: the digits of a concatenation are the digits of each
      piece, one after the other. */
  lemma {:induction false} KeepDigitsAppend(a: string, b: string)
    ensures KeepDigits(a + b) == KeepDigits(a) + KeepDigits(b)
  {
    if a == [] {
      assert a + b == b;
    } else {
      assert (a + b)[1..] == a[1..] + b;
      KeepDigitsAppend(a[1..], b);
    }
  }

  lemma KeepDigitsChar(c: char)
    ensures KeepDigits([c]) == if IsDigit(c) then [c] else []
  {
    assert [c][1..] == [];
  }

  /** A string of digits passes through `KeepDigits` unchanged. */
  lemma {:induction false} KeepDigitsNoop(s: string)
    requires AllDigits(s)
    ensures KeepDigits(s) == s
  {
    if s != [] {
      KeepDigitsNoop(s[1..]);
    }
  }

  function TrimStart(s: string): (r: string)
    ensures |r| <= |s| && r == s[|s| - |r|..]
    ensures r == [] || !IsJsWhitespace(r[0])
    ensures forall i :: 0 <= i < |s| - |r| ==> IsJsWhitespace(s[i])
  {
    if s != [] && IsJsWhitespace(s[0]) then TrimStart(s[1..]) else s
  }

  function TrimEnd(s: string): (r: string)
    ensures |r| <= |s| && r == s[..|r|]
    ensures r == [] || !IsJsWhitespace(r[|r| - 1])
    ensures forall i :: |r| <= i < |s| ==> IsJsWhitespace(s[i])
  {
    if s != [] && IsJsWhitespace(s[|s| - 1]) then TrimEnd(s[..|s| - 1]) else s
  }

  /** `String.prototype.trim`: the result is the slice of `s` left after
      dropping the whitespace at both ends; it neither starts nor ends with
      whitespace. */
  function Trim(s: string): (r: string)
    ensures exists lo, hi ::
              && 0 <= lo <= hi <= |s| && r == s[lo..hi]
              && (forall i :: 0 <= i < lo ==> IsJsWhitespace(s[i]))
              && (forall i :: hi <= i < |s| ==> IsJsWhitespace(s[i]))
    ensures r == [] || (!IsJsWhitespace(r[0]) && !IsJsWhitespace(r[|r| - 1]))
  {
    var t := TrimStart(s);
    var r := TrimEnd(t);
    assert r == s[|s| - |t|..|s| - |t| + |r|];
    r
  }

  function UpperChar(c: char): char
  {
    if 'a' <= c <= 'z' then (c as int - 'a' as int + 'A' as int) as char else c
  }

  /** `toUpperCase` restricted to ASCII: the result has the same length and
      no lower-case ASCII letter; every other character is kept. */
  function ToUpper(s: string): (r: string)
    ensures |r| == |s|
    ensures forall i :: 0 <= i < |r| ==> !('a' <= r[i] <= 'z')
    ensures forall i :: 0 <= i < |r| && !('a' <= s[i] <= 'z') ==> r[i] == s[i]
  {
    if s == [] then [] else [UpperChar(s[0])] + ToUpper(s[1..])
  }

  /** Upper-casing twice is upper-casing once. */
  lemma {:induction false} ToUpperIdempotent(s: string)
    ensures ToUpper(ToUpper(s)) == ToUpper(s)
  {
    if s != [] {
      ToUpperIdempotent(s[1..]);
    }
  }

  /** A UTF-16 code unit. A JavaScript string is a sequence of these:
      `.length` counts them and `s[i]` reads one. */
  newtype CodeUnit = x: int | 0 <= x < 0x1_0000

  /** The UTF-16 encoding of one character: the character itself below
      U+10000, a surrogate pair above. */
  function CharUnits(c: char): (r: seq<CodeUnit>)
    ensures |r| == (if c as int < 0x1_0000 then 1 else 2)
  {
    if c as int < 0x1_0000 then [c as int as CodeUnit]
    else
      var v := c as int - 0x1_0000;
      [(0xD800 + v / 0x400) as CodeUnit, (0xDC00 + v % 0x400) as CodeUnit]
  }

  /** The code units of a string, as JavaScript holds it. */
  function Utf16(s: string): (r: seq<CodeUnit>)
    ensures |r| >= |s|
    ensures r == [] <==> s == []
  {
    if s == [] then [] else CharUnits(s[0]) + Utf16(s[1..])
  }

  /** A character outside the Basic Multilingual Plane counts twice in
      `.length`, so `"\u{1F600}".length` is 2 and three such characters
      make a string of length 6. */
  lemma AstralCountsTwice(c: char)
    requires c as int >= 0x1_0000
    ensures |Utf16([c])| == 2
    ensures |Utf16([c, c, c])| == 6
  {
    assert [c, c, c][1..] == [c, c];
    assert [c, c][1..] == [c];
  }

  /** `s.indexOf(sub)`: the first position where `sub` occurs, or -1. */
  function IndexOf(s: string, sub: string): (r: int)
    ensures r == -1 || 0 <= r <= |s| - |sub|
    ensures r >= 0 ==> sub <= s[r..]
    ensures r >= 0 ==> forall k :: 0 <= k < r ==> !(sub <= s[k..])
    ensures r == -1 ==> forall k :: 0 <= k <= |s| ==> !(sub <= s[k..])
  {
    if sub <= s then 0
    else if s == [] then -1
    else
      var t := IndexOf(s[1..], sub);
      SuffixShift(s);
      assert s[0..] == s;
      if t == -1 then -1 else t + 1
  }

  /** Each suffix of `s` past the first character is a suffix of `s[1..]`. */
  lemma SuffixShift(s: string)
    requires s != []
    ensures forall k :: 1 <= k <= |s| ==> s[k..] == s[1..][k - 1..]
  {
  }

  function DigitChar(d: nat): char
    requires d < 10
  {
    ('0' as int + d) as char
  }

  /** `n.toString()` for a non-negative integer. */
  function NatToDecimal(n: nat): (r: string)
    ensures |r| >= 1 && AllDigits(r)
    ensures |r| > 1 ==> r[0] != '0'
  {
    if n < 10 then [DigitChar(n)]
    else NatToDecimal(n / 10) + [DigitChar(n % 10)]
  }

  /** The number a string of decimal digits spells. */
  function DecimalValue(s: string): nat
    requires AllDigits(s)
  {
    if s == [] then 0
    else 10 * DecimalValue(s[..|s| - 1]) + (s[|s| - 1] as int - '0' as int)
  }

  /** Rendering a number in decimal and reading it back gives the number. */
  lemma {:induction false} DecimalRoundTrip(n: nat)
    ensures DecimalValue(NatToDecimal(n)) == n
  {
    if n >= 10 {
      DecimalRoundTrip(n / 10);
      var r := NatToDecimal(n);
      assert r[..|r| - 1] == NatToDecimal(n / 10);
    }
  }

  /** A number of two or more digits renders as its tens, then one digit. */
  lemma OneMoreDigit(n: nat)
    requires n >= 10
    ensures |NatToDecimal(n)| == |NatToDecimal(n / 10)| + 1
  {
  }

  /** Numbers in [10^5, 10^6) render with exactly 6 digits. */
  lemma SixDigitRendering(n: nat)
    requires 100000 <= n <= 999999
    ensures |NatToDecimal(n)| == 6
  {
    var n1 := n / 10;
    var n2 := n1 / 10;
    var n3 := n2 / 10;
    var n4 := n3 / 10;
    var n5 := n4 / 10;
    assert 10000 <= n1 <= 99999 && 1000 <= n2 <= 9999 && 100 <= n3 <= 999;
    assert 10 <= n4 <= 99 && 1 <= n5 <= 9;
    OneMoreDigit(n);
    OneMoreDigit(n1);
    OneMoreDigit(n2);
    OneMoreDigit(n3);
    OneMoreDigit(n4);
  }
}
