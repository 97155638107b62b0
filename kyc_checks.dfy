/**
 * The automatic KYC decision of the Express service
 * (server/express_service/src/controllers/kyc.controller.js): the PAN and
 * Aadhaar number formats, Levenshtein distance, fuzzy name matching, the
 * seven checks and the decision that never rejects.
 */
module KycChecks {
  import opened Wrappers
  import opened JsText
  import opened UserModel
  import opened Http

  // ---------------------------------------------------------------------
  // Anchored regular expressions made of counted character classes

  /** `[A-Z]` and `\d` (`[0-9]`). */
  datatype CharClass = UpperLatin | Decimal

  predicate InClass(k: CharClass, c: char)
  {
    match k
    case UpperLatin => IsUpper(c)
    case Decimal => IsDigit(c)
  }

  /** `k{count}`. */
  datatype Piece = Repeat(cls: CharClass, count: nat)

  /** `^p0 p1 ... $` matches the whole of `s`. */
  predicate FullMatch(p: seq<Piece>, s: string)
    decreases |p|
  {
    if p == [] then s == []
    else
      && p[0].count <= |s|
      && (forall i :: 0 <= i < p[0].count ==> InClass(p[0].cls, s[i]))
      && FullMatch(p[1..], s[p[0].count..])
  }

  /** `/^[A-Z]{5}[0-9]{4}[A-Z]{1}$/` */
  const PanRegex: seq<Piece> := [Repeat(UpperLatin, 5), Repeat(Decimal, 4), Repeat(UpperLatin, 1)]
  /** `/^\d{12}$/` */
  const AadhaarRegex: seq<Piece> := [Repeat(Decimal, 12)]
  /** `/^\d{6}$/` */
  const PinRegex: seq<Piece> := [Repeat(Decimal, 6)]

  /** `regex.test(v)`: the value is first converted to a string, so an
      absent value is tested as "undefined". */
  predicate Test(p: seq<Piece>, v: JsString)
  {
    FullMatch(p, Interpolate(v))
  }

  predicate ValidatePanFormat(pan: JsString)
  {
    Test(PanRegex, pan)
  }

  predicate ValidateAadhaarFormat(aadhaar: JsString)
  {
    Test(AadhaarRegex, aadhaar)
  }

  /** A PAN is five capital letters, four digits and a capital letter. */
  predicate PanShaped(s: string)
  {
    && |s| == 10
    && (forall i :: 0 <= i < 5 ==> IsUpper(s[i]))
    && (forall i :: 5 <= i < 9 ==> IsDigit(s[i]))
    && IsUpper(s[9])
  }

  /** A single counted class matches exactly the strings of that length
      drawn from the class. */
  lemma OnePieceMatch(k: CharClass, n: nat, s: string)
    ensures FullMatch([Repeat(k, n)], s) <==> |s| == n && forall i :: 0 <= i < n ==> InClass(k, s[i])
  {
    assert [Repeat(k, n)][1..] == [];
  }

  lemma PanFormatIff(pan: JsString)
    ensures ValidatePanFormat(pan) <==> pan.Str? && PanShaped(pan.s)
  {
    var s := Interpolate(pan);
    assert PanRegex[1..] == [Repeat(Decimal, 4), Repeat(UpperLatin, 1)];
    assert PanRegex[1..][1..] == [Repeat(UpperLatin, 1)];
    OnePieceMatch(UpperLatin, 1, if |s| >= 9 then s[9..] else []);
    if ValidatePanFormat(pan) {
      assert |s| >= 9;
      assert FullMatch(PanRegex[1..][1..], s[5..][4..]);
      assert s[5..][4..] == s[9..];
      assert FullMatch(PanRegex[1..], s[5..]);
      assert forall i :: 5 <= i < 9 ==> s[i] == s[5..][i - 5];
    }
    if pan.Str? && PanShaped(pan.s) {
      assert s[5..][4..] == s[9..];
      assert forall i :: 0 <= i < 4 ==> s[5..][i] == s[i + 5];
      assert FullMatch(PanRegex[1..][1..], s[5..][4..]);
      assert FullMatch(PanRegex[1..], s[5..]);
    }
  }

  /** An Aadhaar number is exactly twelve decimal digits; absent and null
      values never pass. */
  lemma AadhaarFormatIff(aadhaar: JsString)
    ensures ValidateAadhaarFormat(aadhaar) <==> aadhaar.Str? && |aadhaar.s| == 12 && AllDigits(aadhaar.s)
  {
    OnePieceMatch(Decimal, 12, Interpolate(aadhaar));
  }

  lemma PinFormatIff(pin: JsString)
    ensures Test(PinRegex, pin) <==> pin.Str? && |pin.s| == 6 && AllDigits(pin.s)
  {
    OnePieceMatch(Decimal, 6, Interpolate(pin));
  }

  /** `v?.replace(/\s+/g, '')`: whitespace removed from a string; an absent
      or null value becomes undefined. */
  function StripNumber(v: JsString): (r: JsString)
    ensures v.Str? <==> r.Str?
    ensures r.Str? ==> r.s == StripWhitespace(v.s)
  {
    if v.Str? then Str(StripWhitespace(v.s)) else Undefined
  }

  /** Whitespace inside a number does not make it fail: any string whose
      non-whitespace characters spell a valid PAN is accepted. */
  lemma SpacedPanAccepted(number: string)
    requires PanShaped(StripWhitespace(number))
    ensures ValidatePanFormat(StripNumber(Str(number)))
  {
    PanFormatIff(StripNumber(Str(number)));
  }

  // ---------------------------------------------------------------------
  // Levenshtein distance

  function Min3(x: nat, y: nat, z: nat): nat
  {
    if x <= y && x <= z then x else if y <= z then y else z
  }

  lemma Min3Swap(x: nat, y: nat, z: nat)
    ensures Min3(x, y, z) == Min3(y, x, z)
  {
  }

  function Max(x: nat, y: nat): nat
  {
    if x >= y then x else y
  }

  /** The edit distance between `a[..i]` and `b[..j]`. */
  function LevP(a: seq<CodeUnit>, b: seq<CodeUnit>, i: nat, j: nat): nat
    requires i <= |a| && j <= |b|
    decreases i + j
  {
    if i == 0 then j
    else if j == 0 then i
    else Min3(LevP(a, b, i - 1, j) + 1, LevP(a, b, i, j - 1) + 1,
              LevP(a, b, i - 1, j - 1) + (if a[i - 1] == b[j - 1] then 0 else 1))
  }

  function Lev(a: seq<CodeUnit>, b: seq<CodeUnit>): nat
  {
    LevP(a, b, |a|, |b|)
  }

  /** `levenshtein(a, b)` on JavaScript strings, whose lengths and
      indices count UTF-16 code units: an empty argument answers the
      other's length at once; otherwise the table is filled row by row. */
  method Levenshtein(s1: string, s2: string) returns (d: nat)
    ensures d == Lev(Utf16(s1), Utf16(s2))
  {
    var a, b := Utf16(s1), Utf16(s2);
    if |a| == 0 || |b| == 0 {
      return Max(|a|, |b|);
    }
    var matrix := new nat[|a| + 1, |b| + 1]((i, j) => 0);
    InitBorders(matrix, a, b);
    var i := 1;
    while i <= |a|
      invariant 1 <= i <= |a| + 1
      invariant forall ii, jj {:trigger matrix[ii, jj]} :: 0 <= ii < i && 0 <= jj <= |b| ==> matrix[ii, jj] == LevP(a, b, ii, jj)
      invariant forall ii :: i <= ii <= |a| ==> matrix[ii, 0] == ii
    {
      FillRow(matrix, a, b, i);
      i := i + 1;
    }
    return matrix[|a|, |b|];
  }

  /** The first column and the first row: `matrix[i][0] = i`, `matrix[0][j] = j`. */
  method InitBorders(matrix: array2<nat>, a: seq<CodeUnit>, b: seq<CodeUnit>)
    requires matrix.Length0 == |a| + 1 && matrix.Length1 == |b| + 1
    modifies matrix
    ensures forall ii :: 0 <= ii <= |a| ==> matrix[ii, 0] == ii
    ensures forall jj :: 0 <= jj <= |b| ==> matrix[0, jj] == jj
  {
    var i := 0;
    while i <= |a|
      invariant 0 <= i <= |a| + 1
      invariant forall ii :: 0 <= ii < i ==> matrix[ii, 0] == ii
    {
      matrix[i, 0] := i;
      i := i + 1;
    }
    var j := 0;
    while j <= |b|
      invariant 0 <= j <= |b| + 1
      invariant forall ii :: 1 <= ii <= |a| ==> matrix[ii, 0] == ii
      invariant forall jj :: 0 <= jj < j ==> matrix[0, jj] == jj
    {
      matrix[0, j] := j;
      j := j + 1;
    }
  }

  /** Row `i` of the table, from the row above and the cell to the left. */
  method FillRow(matrix: array2<nat>, a: seq<CodeUnit>, b: seq<CodeUnit>, i: nat)
    requires matrix.Length0 == |a| + 1 && matrix.Length1 == |b| + 1
    requires 1 <= i <= |a|
    requires forall jj {:trigger matrix[i - 1, jj]} :: 0 <= jj <= |b| ==> matrix[i - 1, jj] == LevP(a, b, i - 1, jj)
    requires matrix[i, 0] == i
    modifies matrix
    ensures forall ii, jj :: 0 <= ii <= |a| && 0 <= jj <= |b| && ii != i ==> matrix[ii, jj] == old(matrix[ii, jj])
    ensures forall jj {:trigger matrix[i, jj]} :: 0 <= jj <= |b| ==> matrix[i, jj] == LevP(a, b, i, jj)
  {
    var j := 1;
    while j <= |b|
      invariant 1 <= j <= |b| + 1
      invariant forall ii, jj :: 0 <= ii <= |a| && 0 <= jj <= |b| && ii != i ==> matrix[ii, jj] == old(matrix[ii, jj])
      invariant forall jj {:trigger matrix[i, jj]} :: 0 <= jj < j ==> matrix[i, jj] == LevP(a, b, i, jj)
    {
      var cost := if a[i - 1] == b[j - 1] then 0 else 1;
      var deletion, insertion, substitution := matrix[i - 1, j] + 1, matrix[i, j - 1] + 1, matrix[i - 1, j - 1] + cost;
      assert matrix[i - 1, j] == old(matrix[i - 1, j]);
      assert matrix[i - 1, j - 1] == old(matrix[i - 1, j - 1]);
      matrix[i, j] := Min3(deletion, insertion, substitution);
      j := j + 1;
    }
  }

  /** Against the empty string the distance is the other length. */
  lemma LevEmpty(a: seq<CodeUnit>, b: seq<CodeUnit>)
    requires a == [] || b == []
    ensures Lev(a, b) == Max(|a|, |b|)
  {
  }

  lemma {:induction false} LevSameP(a: seq<CodeUnit>, i: nat)
    requires i <= |a|
    ensures LevP(a, a, i, i) == 0
  {
    if i > 0 {
      LevSameP(a, i - 1);
    }
  }

  /** A string is at distance 0 from itself. */
  lemma LevSame(a: seq<CodeUnit>)
    ensures Lev(a, a) == 0
  {
    LevSameP(a, |a|);
  }

  lemma {:induction false} LevBoundP(a: seq<CodeUnit>, b: seq<CodeUnit>, i: nat, j: nat)
    requires i <= |a| && j <= |b|
    ensures LevP(a, b, i, j) <= Max(i, j)
    decreases i + j
  {
    if i > 0 && j > 0 {
      LevBoundP(a, b, i - 1, j - 1);
    }
  }

  /** The distance never exceeds the longer length. */
  lemma LevBound(a: seq<CodeUnit>, b: seq<CodeUnit>)
    ensures Lev(a, b) <= Max(|a|, |b|)
  {
    LevBoundP(a, b, |a|, |b|);
  }

  lemma {:induction false} LevZeroP(a: seq<CodeUnit>, b: seq<CodeUnit>, i: nat, j: nat)
    requires i <= |a| && j <= |b|
    requires LevP(a, b, i, j) == 0
    ensures i == j && a[..i] == b[..j]
    decreases i + j
  {
    if i > 0 && j > 0 {
      LevZeroP(a, b, i - 1, j - 1);
      assert a[..i] == a[..i - 1] + [a[i - 1]];
      assert b[..j] == b[..j - 1] + [b[j - 1]];
    }
  }

  /** Distance 0 means equal strings, and only then. */
  lemma LevZeroIff(a: seq<CodeUnit>, b: seq<CodeUnit>)
    ensures Lev(a, b) == 0 <==> a == b
  {
    if Lev(a, b) == 0 {
      LevZeroP(a, b, |a|, |b|);
      assert a == a[..|a|] && b == b[..|b|];
    }
    if a == b {
      LevSame(a);
    }
  }

  lemma {:induction false} LevSymmetricP(a: seq<CodeUnit>, b: seq<CodeUnit>, i: nat, j: nat)
    requires i <= |a| && j <= |b|
    ensures LevP(a, b, i, j) == LevP(b, a, j, i)
    decreases i + j
  {
    if i > 0 && j > 0 {
      LevSymmetricP(a, b, i - 1, j);
      LevSymmetricP(a, b, i, j - 1);
      LevSymmetricP(a, b, i - 1, j - 1);
      var c := if a[i - 1] == b[j - 1] then 0 else 1;
      assert c == if b[j - 1] == a[i - 1] then 0 else 1;
      Min3Swap(LevP(a, b, i - 1, j) + 1, LevP(a, b, i, j - 1) + 1, LevP(a, b, i - 1, j - 1) + c);
    }
  }

  /** The distance does not depend on the order of its arguments. */
  lemma LevSymmetric(a: seq<CodeUnit>, b: seq<CodeUnit>)
    ensures Lev(a, b) == Lev(b, a)
  {
    LevSymmetricP(a, b, |a|, |b|);
  }

  /** Lengths and distances count UTF-16 code units, as in JavaScript: a
      character outside the Basic Multilingual Plane is two units away from
      the empty string. */
  lemma AstralDistance(c: char)
    requires c as int >= 0x1_0000
    ensures Lev(Utf16([c]), Utf16([])) == 2
  {
    AstralCountsTwice(c);
    LevEmpty(Utf16([c]), Utf16([]));
  }

  // ---------------------------------------------------------------------
  // Fuzzy matching

  const NameThreshold: real := 0.8
  const FatherNameThreshold: real := 0.6

  /** `fuzzyMatch(s1, s2, threshold)`: both strings must be non-empty; the
      distance is taken between the upper-cased strings, the length is the
      longer original length, both in UTF-16 code units, and the similarity
      `1 - distance / maxLen` is compared with the threshold. */
  function FuzzyMatch(s1: JsString, s2: JsString, threshold: real): (r: bool)
    ensures r ==> Truthy(s1) && Truthy(s2)
  {
    if !Truthy(s1) || !Truthy(s2) then false
    else
      var distance := Lev(Utf16(ToUpper(s1.s)), Utf16(ToUpper(s2.s)));
      var maxLen := Max(|Utf16(s1.s)|, |Utf16(s2.s)|);
      1.0 - (distance as real) / (maxLen as real) >= threshold
  }

  lemma ScaleCompare(x: real, y: real, c: real)
    requires c > 0.0
    ensures x >= y <==> x * c >= y * c
  {
    if x >= y {
      assert (x - y) * c >= 0.0;
    } else {
      assert (y - x) * c > 0.0;
    }
  }

  /** `1 - d / m >= p / q` read as integer arithmetic. */
  lemma SimilarityCut(d: nat, m: nat, p: nat, q: nat)
    requires m > 0 && 0 < q && p <= q
    ensures 1.0 - (d as real) / (m as real) >= (p as real) / (q as real) <==> q * d <= (q - p) * m
  {
    var D, M, P, Q := d as real, m as real, p as real, q as real;
    var c := M * Q;
    assert c > 0.0;
    ScaleCompare(1.0 - D / M, P / Q, c);
    assert (1.0 - D / M) * c == Q * M - Q * D by {
      assert D / M * M == D;
    }
    assert P / Q * c == P * M by {
      assert P / Q * Q == P;
    }
    assert (Q * M - Q * D >= P * M) <==> ((q * d) as real <= ((q - p) * m) as real);
  }

  /** At a threshold p / q, names match iff q times the distance is at
      most q − p times the longer length. */
  lemma FuzzyMatchCut(s1: JsString, s2: JsString, p: nat, q: nat)
    requires Truthy(s1) && Truthy(s2) && 0 < q && p <= q
    ensures FuzzyMatch(s1, s2, (p as real) / (q as real))
        <==> q * Lev(Utf16(ToUpper(s1.s)), Utf16(ToUpper(s2.s))) <= (q - p) * Max(|Utf16(s1.s)|, |Utf16(s2.s)|)
  {
    var d, m := Lev(Utf16(ToUpper(s1.s)), Utf16(ToUpper(s2.s))), Max(|Utf16(s1.s)|, |Utf16(s2.s)|);
    assert m > 0;
    assert FuzzyMatch(s1, s2, (p as real) / (q as real)) == (1.0 - (d as real) / (m as real) >= (p as real) / (q as real));
    SimilarityCut(d, m, p, q);
  }

  /** With the default threshold 0.8, names match iff the distance is at
      most a fifth of the longer name. */
  lemma NameMatchIff(s1: JsString, s2: JsString)
    requires Truthy(s1) && Truthy(s2)
    ensures FuzzyMatch(s1, s2, NameThreshold)
        <==> 5 * Lev(Utf16(ToUpper(s1.s)), Utf16(ToUpper(s2.s))) <= Max(|Utf16(s1.s)|, |Utf16(s2.s)|)
  {
    assert NameThreshold == (4 as real) / (5 as real);
    FuzzyMatchCut(s1, s2, 4, 5);
  }

  /** With threshold 0.6, father's names match iff the distance is at most
      two fifths of the longer name. */
  lemma FatherNameMatchIff(s1: JsString, s2: JsString)
    requires Truthy(s1) && Truthy(s2)
    ensures FuzzyMatch(s1, s2, FatherNameThreshold)
        <==> 5 * Lev(Utf16(ToUpper(s1.s)), Utf16(ToUpper(s2.s))) <= 2 * Max(|Utf16(s1.s)|, |Utf16(s2.s)|)
  {
    assert FatherNameThreshold == (3 as real) / (5 as real);
    FuzzyMatchCut(s1, s2, 3, 5);
  }

  /** A non-empty name matches itself, and matches it in any letter case,
      for every threshold up to 1. */
  lemma FuzzyMatchCaseInsensitive(s: string, threshold: real)
    requires s != [] && threshold <= 1.0
    ensures FuzzyMatch(Str(s), Str(s), threshold)
    ensures FuzzyMatch(Str(s), Str(ToUpper(s)), threshold)
  {
    LevSame(Utf16(ToUpper(s)));
    ToUpperIdempotent(s);
  }

  /** Matching is symmetric. */
  lemma FuzzyMatchSymmetric(s1: JsString, s2: JsString, threshold: real)
    ensures FuzzyMatch(s1, s2, threshold) == FuzzyMatch(s2, s1, threshold)
  {
    if Truthy(s1) && Truthy(s2) {
      LevSymmetric(Utf16(ToUpper(s1.s)), Utf16(ToUpper(s2.s)));
    }
  }

  // ---------------------------------------------------------------------
  // The checks and the decision

  const ManualReviewDetails := "Critical document format issues detected - requires manual verification"

  const StepOrder: seq<Step> :=
    [PanFormat, AadhaarFormat, NameMatch, DobMatch, AddressValidation, FatherNameMatch, PanAadhaarLinkage]

  function PassIf(b: bool): CheckStatus
  {
    if b then Pass else Fail
  }

  predicate AddressValid(aadhaar: AadhaarCard)
  {
    Truthy(aadhaar.address) && Test(PinRegex, aadhaar.pinCode)
  }

  /** The seven checks, in the order they are pushed. */
  function SevenChecks(pan: PanCard, aadhaar: AadhaarCard): (r: seq<Check>)
    ensures |r| == 7
    ensures r[0].step == PanFormat && r[1].step == AadhaarFormat && r[2].step == NameMatch
    ensures r[3].step == DobMatch && r[4].step == AddressValidation && r[5].step == FatherNameMatch
    ensures r[6] == Check(PanAadhaarLinkage, Pass, NoDetails)
    ensures r[0].status == PassIf(ValidatePanFormat(StripNumber(pan.panNumber)))
    ensures r[1].status == PassIf(ValidateAadhaarFormat(StripNumber(aadhaar.aadhaarNumber)))
    ensures r[2].status == PassIf(FuzzyMatch(pan.fullName, aadhaar.fullName, NameThreshold))
    ensures r[3].status == PassIf(pan.dateOfBirth == aadhaar.dateOfBirth)
    ensures r[4].status == PassIf(AddressValid(aadhaar))
    ensures r[5].status == PassIf(FuzzyMatch(OrEmpty(pan.fatherName), OrEmpty(aadhaar.fatherName), FatherNameThreshold))
  {
    [ Check(PanFormat, PassIf(ValidatePanFormat(StripNumber(pan.panNumber))), NoDetails),
      Check(AadhaarFormat, PassIf(ValidateAadhaarFormat(StripNumber(aadhaar.aadhaarNumber))), NoDetails),
      Check(NameMatch, PassIf(FuzzyMatch(pan.fullName, aadhaar.fullName, NameThreshold)),
            Versus(pan.fullName, aadhaar.fullName)),
      Check(DobMatch, PassIf(pan.dateOfBirth == aadhaar.dateOfBirth),
            Versus(pan.dateOfBirth, aadhaar.dateOfBirth)),
      Check(AddressValidation, PassIf(AddressValid(aadhaar)), Field(aadhaar.address)),
      Check(FatherNameMatch, PassIf(FuzzyMatch(OrEmpty(pan.fatherName), OrEmpty(aadhaar.fatherName), FatherNameThreshold)),
            Versus(pan.fatherName, aadhaar.fatherName)),
      Check(PanAadhaarLinkage, Pass, NoDetails) ]
  }

  predicate IsCriticalFailure(c: Check)
  {
    c.status == Fail && (c.step == PanFormat || c.step == AadhaarFormat)
  }

  predicate HasCriticalFailure(checks: seq<Check>)
  {
    exists k :: 0 <= k < |checks| && IsCriticalFailure(checks[k])
  }

  predicate HasFailure(checks: seq<Check>)
  {
    exists k :: 0 <= k < |checks| && checks[k].status == Fail
  }

  /** The overall decision: a critical failure or any other failure sends
      the user to review; only a clean list is approved. */
  function Overall(checks: seq<Check>): (r: OverallStatus)
    ensures r != Rejected
    ensures r == Approved <==> forall k :: 0 <= k < |checks| ==> checks[k].status != Fail
  {
    if HasCriticalFailure(checks) then PendingReview
    else if HasFailure(checks) then PendingReview
    else Approved
  }

  /** The stored result: the seven checks, then one manual-review entry if
      a format check failed. */
  function KycResult(pan: PanCard, aadhaar: AadhaarCard, performedAt: int): KycVerification
  {
    var checks := SevenChecks(pan, aadhaar);
    KycVerification(Some(Overall(checks)), checks + ManualReviewEntry(checks), Some(performedAt))
  }

  function ManualReviewEntry(checks: seq<Check>): seq<Check>
  {
    if HasCriticalFailure(checks) then [Check(ManualReviewRequired, ManualCheck, Note(ManualReviewDetails))] else []
  }

  /** Only the first two of the seven steps can fail critically. */
  lemma CriticalOnlyInFormats(checks: seq<Check>)
    requires |checks| == 7 && checks[0].step == PanFormat && checks[1].step == AadhaarFormat
    requires forall k :: 2 <= k < 7 ==> checks[k].step != PanFormat && checks[k].step != AadhaarFormat
    ensures HasCriticalFailure(checks) <==> checks[0].status == Fail || checks[1].status == Fail
  {
    if checks[0].status == Fail {
      assert IsCriticalFailure(checks[0]);
    } else if checks[1].status == Fail {
      assert IsCriticalFailure(checks[1]);
    }
  }

  /** The first seven entries are the fixed steps in order and the linkage
      step always passes; an eighth entry exists exactly when the PAN or
      Aadhaar format check failed, and it is the manual-review entry. */
  lemma KycResultLayout(pan: PanCard, aadhaar: AadhaarCard, performedAt: int)
    ensures var r := KycResult(pan, aadhaar, performedAt);
      && 7 <= |r.checks| <= 8
      && (forall k :: 0 <= k < 7 ==> r.checks[k].step == StepOrder[k])
      && r.checks[6].status == Pass
      && (|r.checks| == 8 <==>
            (!ValidatePanFormat(StripNumber(pan.panNumber)) || !ValidateAadhaarFormat(StripNumber(aadhaar.aadhaarNumber))))
      && (|r.checks| == 8 ==> r.checks[7] == Check(ManualReviewRequired, ManualCheck, Note(ManualReviewDetails)))
      && (forall k :: 0 <= k < 7 ==> r.checks[k].status != ManualCheck)
  {
    var checks := SevenChecks(pan, aadhaar);
    assert StepsInOrder(checks);
    assert forall k :: 0 <= k < 7 ==> checks[k].status != ManualCheck;
    WithManualEntry(checks);
  }

  predicate StepsInOrder(checks: seq<Check>)
  {
    |checks| == 7 && forall k :: 0 <= k < 7 ==> checks[k].step == StepOrder[k]
  }

  /** The manual-review entry, seen on any seven checks in the fixed order. */
  lemma WithManualEntry(checks: seq<Check>)
    requires StepsInOrder(checks)
    ensures var all := checks + ManualReviewEntry(checks);
      && 7 <= |all| <= 8
      && (forall k :: 0 <= k < 7 ==> all[k] == checks[k])
      && (|all| == 8 <==> checks[0].status == Fail || checks[1].status == Fail)
      && (|all| == 8 ==> all[7] == Check(ManualReviewRequired, ManualCheck, Note(ManualReviewDetails)))
  {
    CriticalOnlyInFormats(checks);
  }

  /** The result is approved iff none of its checks, the manual-review
      entry included, failed; it is never rejected. */
  lemma KycResultDecision(pan: PanCard, aadhaar: AadhaarCard, performedAt: int)
    ensures var r := KycResult(pan, aadhaar, performedAt);
      && r.overallStatus.Some? && r.overallStatus != Some(Rejected)
      && (r.overallStatus == Some(Approved) <==> forall k :: 0 <= k < |r.checks| ==> r.checks[k].status != Fail)
  {
    var checks := SevenChecks(pan, aadhaar);
    var r := KycResult(pan, aadhaar, performedAt);
    assert r.checks[..7] == checks;
    if r.overallStatus == Some(Approved) {
      assert forall k :: 0 <= k < |r.checks| ==> r.checks[k].status != Fail by {
        forall k | 0 <= k < |r.checks|
          ensures r.checks[k].status != Fail
        {
          if k < 7 {
            assert r.checks[k] == checks[k];
          }
        }
      }
    }
  }

  /** A user whose cards agree in every checked field is approved. */
  lemma ConsistentCardsApproved(pan: PanCard, aadhaar: AadhaarCard, performedAt: int)
    requires pan.panNumber.Str? && PanShaped(StripWhitespace(pan.panNumber.s))
    requires aadhaar.aadhaarNumber.Str? && |StripWhitespace(aadhaar.aadhaarNumber.s)| == 12
    requires AllDigits(StripWhitespace(aadhaar.aadhaarNumber.s))
    requires Truthy(pan.fullName) && pan.fullName == aadhaar.fullName
    requires Truthy(pan.fatherName) && pan.fatherName == aadhaar.fatherName
    requires pan.dateOfBirth == aadhaar.dateOfBirth
    requires Truthy(aadhaar.address) && aadhaar.pinCode.Str? && |aadhaar.pinCode.s| == 6 && AllDigits(aadhaar.pinCode.s)
    ensures KycResult(pan, aadhaar, performedAt).overallStatus == Some(Approved)
  {
    PanFormatIff(StripNumber(pan.panNumber));
    AadhaarFormatIff(StripNumber(aadhaar.aadhaarNumber));
    PinFormatIff(aadhaar.pinCode);
    FuzzyMatchCaseInsensitive(pan.fullName.s, NameThreshold);
    FuzzyMatchCaseInsensitive(pan.fatherName.s, FatherNameThreshold);
    var checks := SevenChecks(pan, aadhaar);
    assert checks[0].status == Pass && checks[1].status == Pass && checks[2].status == Pass;
    assert checks[3].status == Pass && checks[4].status == Pass && checks[5].status == Pass;
    NoFailureInSeven(checks);
  }

  lemma NoFailureInSeven(checks: seq<Check>)
    requires |checks| == 7
    requires checks[0].status == Pass && checks[1].status == Pass && checks[2].status == Pass
    requires checks[3].status == Pass && checks[4].status == Pass && checks[5].status == Pass
    requires checks[6].status == Pass
    ensures Overall(checks) == Approved
  {
  }

  /** The pushes of the seven checks. */
  method PushChecks(pan: PanCard, aadhaar: AadhaarCard) returns (checks: seq<Check>)
    ensures checks == SevenChecks(pan, aadhaar)
  {
    checks := [];
    var panNumber := StripNumber(pan.panNumber);
    if ValidatePanFormat(panNumber) {
      checks := checks + [Check(PanFormat, Pass, NoDetails)];
    } else {
      checks := checks + [Check(PanFormat, Fail, NoDetails)];
    }
    ghost var c0 := checks[0];
    assert checks == [c0];
    var aadhaarNumber := StripNumber(aadhaar.aadhaarNumber);
    if ValidateAadhaarFormat(aadhaarNumber) {
      checks := checks + [Check(AadhaarFormat, Pass, NoDetails)];
    } else {
      checks := checks + [Check(AadhaarFormat, Fail, NoDetails)];
    }
    ghost var c1 := checks[1];
    assert checks == [c0, c1];
    var nameMatch := FuzzyMatch(pan.fullName, aadhaar.fullName, NameThreshold);
    var c2 := Check(NameMatch, PassIf(nameMatch), Versus(pan.fullName, aadhaar.fullName));
    checks := checks + [c2];
    var dobMatch := pan.dateOfBirth == aadhaar.dateOfBirth;
    var c3 := Check(DobMatch, PassIf(dobMatch), Versus(pan.dateOfBirth, aadhaar.dateOfBirth));
    checks := checks + [c3];
    var addressValid := AddressValid(aadhaar);
    var c4 := Check(AddressValidation, PassIf(addressValid), Field(aadhaar.address));
    checks := checks + [c4];
    var fatherMatch := FuzzyMatch(OrEmpty(pan.fatherName), OrEmpty(aadhaar.fatherName), FatherNameThreshold);
    var c5 := Check(FatherNameMatch, PassIf(fatherMatch), Versus(pan.fatherName, aadhaar.fatherName));
    checks := checks + [c5];
    var linked := true;
    var c6 := Check(PanAadhaarLinkage, if linked then Pass else ManualCheck, NoDetails);
    checks := checks + [c6];
    Pushes(c0, c1, c2, c3, c4, c5, c6);
  }

  lemma Pushes<T>(c0: T, c1: T, c2: T, c3: T, c4: T, c5: T, c6: T)
    ensures [c0, c1] + [c2] + [c3] + [c4] + [c5] + [c6] == [c0, c1, c2, c3, c4, c5, c6]
  {
  }

  /** The final decision over the pushed checks, and the manual-review
      entry a critical failure adds. */
  method Decide(pushed: seq<Check>, performedAt: int) returns (result: KycVerification)
    ensures result == KycVerification(Some(Overall(pushed)), pushed + ManualReviewEntry(pushed), Some(performedAt))
  {
    var checks := pushed;
    var critical := HasCriticalFailure(checks);
    var overall;
    if critical {
      overall := PendingReview;
    } else if HasFailure(checks) {
      overall := PendingReview;
    } else {
      overall := Approved;
    }
    if critical {
      checks := checks + [Check(ManualReviewRequired, ManualCheck, Note(ManualReviewDetails))];
    }
    result := KycVerification(Some(overall), checks, Some(performedAt));
  }

  /** `findByIdAndUpdate`: the result and both `verified` flags. */
  method StoreResult(user: UserRecord, result: KycVerification)
    requires user.panCard.Some? && user.aadhaarCard.Some?
    modifies user
    ensures var approved := result.overallStatus == Some(Approved);
      && user.kycVerification == result
      && user.panCard == Some(old(user.panCard).value.(verified := approved))
      && user.aadhaarCard == Some(old(user.aadhaarCard).value.(verified := approved))
    ensures user.phoneNumber == old(user.phoneNumber) && user.phoneVerified == old(user.phoneVerified)
    ensures user.password == old(user.password) && user.kycStatus == old(user.kycStatus)
    ensures user.otpVerification == old(user.otpVerification) && user.modified == old(user.modified)
    ensures user.name == old(user.name)
  {
    var overall := result.overallStatus;
    user.kycVerification := result;
    user.aadhaarCard := Some(user.aadhaarCard.value.(verified := overall == Some(Approved)));
    user.panCard := Some(user.panCard.value.(verified := overall == Some(Approved)));
  }

  /** `performKYCChecks`: a missing user is 404, a user without both cards
      is 400; otherwise the checks are stored in `kycVerification` and both
      cards' `verified` flags are set to whether the result is approved. */
  method PerformKycChecks(user: UserRecord?, performedAt: int) returns (r: Result<KycVerification, ApiError>)
    modifies user
    ensures user == null ==> r == Failure(ApiError(NotFound, "User not found"))
    ensures user != null && (old(user.panCard).None? || old(user.aadhaarCard).None?) ==>
      r == Failure(ApiError(BadRequest, "Both PAN and Aadhaar data are required for KYC verification"))
      && unchanged(user)
    ensures user != null && old(user.panCard).Some? && old(user.aadhaarCard).Some? ==>
      var result := KycResult(old(user.panCard).value, old(user.aadhaarCard).value, performedAt);
      var approved := result.overallStatus == Some(Approved);
      && r == Success(result)
      && user.kycVerification == result
      && user.panCard == Some(old(user.panCard).value.(verified := approved))
      && user.aadhaarCard == Some(old(user.aadhaarCard).value.(verified := approved))
      && user.phoneNumber == old(user.phoneNumber) && user.phoneVerified == old(user.phoneVerified)
      && user.password == old(user.password) && user.kycStatus == old(user.kycStatus)
      && user.otpVerification == old(user.otpVerification) && user.modified == old(user.modified)
      && user.name == old(user.name)
  {
    if user == null {
      return Failure(ApiError(NotFound, "User not found"));
    }
    if user.panCard.None? || user.aadhaarCard.None? {
      return Failure(ApiError(BadRequest, "Both PAN and Aadhaar data are required for KYC verification"));
    }
    var pan := user.panCard.value;
    var aadhaar := user.aadhaarCard.value;
    var checks := PushChecks(pan, aadhaar);
    var result := Decide(checks, performedAt);
    assert result == KycResult(pan, aadhaar, performedAt);
    StoreResult(user, result);
    return Success(result);
  }
}
