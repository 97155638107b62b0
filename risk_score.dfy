/**
 * `getRiskScore` and `verifyOtpImage` of the auth controller.
 *
 * The risk score starts at 100 and is adjusted additively: watch-list
 * matches on the normalised name, KYC completeness over four fields, one
 * adjustment per stored check (the `forEach`), account age, OTP status and
 * the time the KYC run took after sign-up. It is clamped to [0, 100] and
 * mapped to a risk band and a recommended action, which is written back
 * to the user's KYC decision when it differs. Times are parameters.
 */
module RiskScore {
  import opened Wrappers
  import opened JsText
  import opened UserModel
  import opened Http
  import KycChecks

  // ---------------------------------------------------------------------
  // Watch lists

  /** The three lists as loaded from JSON: sanctions are plain names; a PEP
      entry's `name` and an adverse-media entry's `entity` may be missing. */
  datatype WatchLists = WatchLists(sanctions: seq<string>, peps: seq<JsString>, adverseMedia: seq<JsString>)

  /** `s.trim().toUpperCase()`. */
  function NormalName(s: string): string
  {
    ToUpper(Trim(s))
  }

  /** `names.some(n => n.trim().toUpperCase() === userName)`. */
  predicate AnyName(names: seq<string>, userName: string)
  {
    exists k :: 0 <= k < |names| && NormalName(names[k]) == userName
  }

  /** `entries.some(e => e.field?.trim().toUpperCase() === userName)`: a
      missing field gives undefined, which equals no string. */
  predicate AnyField(entries: seq<JsString>, userName: string)
  {
    exists k :: 0 <= k < |entries| && entries[k].Str? && NormalName(entries[k].s) == userName
  }

  /** The flags the handler pushes; FlagText gives the pushed string. */
  datatype Flag =
    | SanctionListMatch | PepListMatch | AdverseMediaMatch
    | IncompleteKyc | PartiallyCompleteKyc
    | CriticalKycFailure(step: Step) | MinorKycIssue(step: Step) | ManualReviewFlag(step: Step)
    | MultipleCriticalIssues
    | VeryNewAccount | NewAccount | FailedOtpVerification
    | UnusuallyFastKyc | DelayedKyc
    | HighRiskReview | CriticalRiskReview

  function FlagText(f: Flag): string
  {
    match f
    case SanctionListMatch => "Sanction List Match"
    case PepListMatch => "PEP List Match"
    case AdverseMediaMatch => "Adverse Media Match"
    case IncompleteKyc => "Incomplete KYC Documentation"
    case PartiallyCompleteKyc => "Partially Complete KYC"
    case CriticalKycFailure(st) => "Critical KYC Failure: " + StepName(st)
    case MinorKycIssue(st) => "Minor KYC Issue: " + StepName(st)
    case ManualReviewFlag(st) => "Manual Review Required: " + StepName(st)
    case MultipleCriticalIssues => "Multiple Critical Document Issues"
    case VeryNewAccount => "Very New Account"
    case NewAccount => "New Account"
    case FailedOtpVerification => "Failed OTP Verification"
    case UnusuallyFastKyc => "Unusually Fast KYC Completion"
    case DelayedKyc => "Delayed KYC Completion"
    case HighRiskReview => "High Risk - Manual Review Required"
    case CriticalRiskReview => "Critical Risk - Comprehensive Manual Review Required"
  }

  /** What one section contributes: a change to the score and the flags it
      pushes, in order. */
  datatype Part = Part(delta: int, flags: seq<Flag>)

  function WatchPart(lists: WatchLists, userName: string): Part
  {
    var s := AnyName(lists.sanctions, userName);
    var p := AnyField(lists.peps, userName);
    var a := AnyField(lists.adverseMedia, userName);
    Part((if s then -40 else 0) + (if p then -30 else 0) + (if a then -20 else 0),
         (if s then [SanctionListMatch] else []) + (if p then [PepListMatch] else [])
         + (if a then [AdverseMediaMatch] else []))
  }

  // ---------------------------------------------------------------------
  // Completeness

  function Count(b: bool): nat
  {
    if b then 1 else 0
  }

  /** The required fields (`panCard`, `aadhaarCard`, `address`,
      `dateOfBirth`) whose value is truthy; the date of birth may come from
      either card. */
  function CompletedFields(pan: Option<PanCard>, aadhaar: Option<AadhaarCard>): (r: nat)
    ensures r <= 4
  {
    Count(pan.Some? && Truthy(pan.value.panNumber))
    + Count(aadhaar.Some? && Truthy(aadhaar.value.aadhaarNumber))
    + Count(aadhaar.Some? && Truthy(aadhaar.value.address))
    + Count((pan.Some? && Truthy(pan.value.dateOfBirth)) || (aadhaar.Some? && Truthy(aadhaar.value.dateOfBirth)))
  }

  /** The completeness tiers, compared on the ratio `completed / 4`. */
  function CompletenessPart(completed: nat): Part
  {
    var ratio := (completed as real) / 4.0;
    if ratio < 0.5 then Part(-30, [IncompleteKyc])
    else if ratio < 0.8 then Part(-15, [PartiallyCompleteKyc])
    else if ratio == 1.0 then Part(10, [])
    else Part(0, [])
  }

  /** On the four fields the ratio tiers are: at most one field −30, two
      or three −15, all four +10; no count of fields falls through. */
  lemma CompletenessTiers(completed: nat)
    requires completed <= 4
    ensures CompletenessPart(completed).delta == -30 <==> completed <= 1
    ensures CompletenessPart(completed).delta == -15 <==> 2 <= completed <= 3
    ensures CompletenessPart(completed).delta == 10 <==> completed == 4
    ensures CompletenessPart(completed).delta != 0
  {
    var ratio := (completed as real) / 4.0;
    assert ratio * 4.0 == completed as real;
  }

  // ---------------------------------------------------------------------
  // The checks (the forEach)

  /** `['PAN Format', 'Aadhaar Format', 'Name Match'].includes(step)`. */
  predicate IsCriticalStep(st: Step)
  {
    st == PanFormat || st == AadhaarFormat || st == NameMatch
  }

  /** `['DOB Match', 'Address Validation', 'Father Name Match'].includes(step)`. */
  predicate IsMinorStep(st: Step)
  {
    st == DobMatch || st == AddressValidation || st == FatherNameMatch
  }

  /** A step as read back from a stored name. */
  predicate Canonical(st: Step)
  {
    ParseStep(StepName(st)) == st
  }

  /** On steps read back from the stored names, the enum tests are the
      handler's tests on the names. */
  lemma StepKindsByName(st: Step)
    requires Canonical(st)
    ensures IsCriticalStep(st) <==> StepName(st) in ["PAN Format", "Aadhaar Format", "Name Match"]
    ensures IsMinorStep(st) <==> StepName(st) in ["DOB Match", "Address Validation", "Father Name Match"]
  {
    if st.OtherStep? {
      assert StepName(st) != StepName(PanFormat) && StepName(st) != StepName(AadhaarFormat);
      assert StepName(st) != StepName(NameMatch) && StepName(st) != StepName(DobMatch);
      assert StepName(st) != StepName(AddressValidation) && StepName(st) != StepName(FatherNameMatch);
    }
  }

  /** The counters and the running adjustment of the loop over the checks. */
  datatype Tally = Tally(passed: nat, critical: nat, minor: nat, adjustment: int, flags: seq<Flag>)

  const NoTally := Tally(0, 0, 0, 0, [])

  /** One iteration of the loop body. */
  function Tallied(t: Tally, c: Check): Tally
  {
    match c.status
    case Pass => t.(passed := t.passed + 1, adjustment := t.adjustment + 1)
    case Fail =>
      if IsCriticalStep(c.step) then
        t.(critical := t.critical + 1, adjustment := t.adjustment - 15,
           flags := t.flags + [CriticalKycFailure(c.step)])
      else if IsMinorStep(c.step) then
        t.(minor := t.minor + 1, adjustment := t.adjustment - 5,
           flags := t.flags + [MinorKycIssue(c.step)])
      else t
    case ManualCheck =>
      t.(adjustment := t.adjustment - 8, flags := t.flags + [ManualReviewFlag(c.step)])
  }

  /** The loop over `checks`, in order. */
  function TallyOf(checks: seq<Check>): Tally
  {
    if checks == [] then NoTally else Tallied(TallyOf(checks[..|checks| - 1]), checks[|checks| - 1])
  }

  /** How many checks have the status. */
  function CountStatus(checks: seq<Check>, s: CheckStatus): nat
  {
    if checks == [] then 0 else CountStatus(checks[..|checks| - 1], s) + Count(checks[|checks| - 1].status == s)
  }

  /** How many checks failed on a step of the given kind. */
  function CountFailed(checks: seq<Check>, critical: bool): nat
  {
    if checks == [] then 0
    else
      var c := checks[|checks| - 1];
      CountFailed(checks[..|checks| - 1], critical)
      + Count(c.status == Fail && (if critical then IsCriticalStep(c.step) else !IsCriticalStep(c.step) && IsMinorStep(c.step)))
  }

  /** The loop counts each kind of outcome, and its adjustment is +1 per
      pass, −15 per critical failure, −5 per minor failure and −8 per
      manual check; a failure on any other step counts nothing. */
  lemma {:induction false} TallyCounts(checks: seq<Check>)
    ensures TallyOf(checks).passed == CountStatus(checks, Pass)
    ensures TallyOf(checks).critical == CountFailed(checks, true)
    ensures TallyOf(checks).minor == CountFailed(checks, false)
    ensures TallyOf(checks).adjustment == TallyOf(checks).passed - 15 * TallyOf(checks).critical
                                          - 5 * TallyOf(checks).minor - 8 * CountStatus(checks, ManualCheck)
    ensures TallyOf(checks).passed + TallyOf(checks).critical + TallyOf(checks).minor <= |checks|
  {
    if checks != [] {
      TallyCounts(checks[..|checks| - 1]);
    }
  }

  /** The loop of `getRiskScore` over the stored checks. */
  method TallyChecks(checks: seq<Check>) returns (t: Tally)
    ensures t == TallyOf(checks)
  {
    t := NoTally;
    for i := 0 to |checks|
      invariant t == TallyOf(checks[..i])
    {
      assert checks[..i + 1][..i] == checks[..i];
      var check := checks[i];
      if check.status == Pass {
        t := t.(passed := t.passed + 1, adjustment := t.adjustment + 1);
      } else if check.status == Fail {
        if IsCriticalStep(check.step) {
          t := t.(critical := t.critical + 1, adjustment := t.adjustment - 15,
                  flags := t.flags + [CriticalKycFailure(check.step)]);
        } else if IsMinorStep(check.step) {
          t := t.(minor := t.minor + 1, adjustment := t.adjustment - 5,
                  flags := t.flags + [MinorKycIssue(check.step)]);
        }
      } else if check.status == ManualCheck {
        t := t.(adjustment := t.adjustment - 8, flags := t.flags + [ManualReviewFlag(check.step)]);
      }
    }
    assert checks[..|checks|] == checks;
  }

  /** `checks.find(c => c.step === name)`: the first check of that step. */
  function FindStep(checks: seq<Check>, st: Step): (r: Option<Check>)
    ensures r.Some? ==> exists k :: 0 <= k < |checks| && checks[k] == r.value && r.value.step == st &&
                          forall j :: 0 <= j < k ==> checks[j].step != st
    ensures r.None? ==> forall c :: c in checks ==> c.step != st
  {
    if checks == [] then None
    else if checks[0].step == st then Some(checks[0])
    else FindStep(checks[1..], st)
  }

  predicate FailedStep(checks: seq<Check>, st: Step)
  {
    var c := FindStep(checks, st);
    c.Some? && c.value.status == Fail
  }

  /** The consistency sub-score, floored at 0. */
  function Consistency(checks: seq<Check>, t: Tally): int
  {
    var s := 100 - (if FailedStep(checks, NameMatch) then 40 else 0)
                 - (if FailedStep(checks, DobMatch) then 30 else 0)
                 - (if t.critical > 0 then t.critical * 20 else 0)
                 - (if t.minor > 1 then t.minor * 10 else 0);
    if s < 0 then 0 else s
  }

  /** The sub-score lies in [0, 100] and is 100 exactly when nothing failed
      on a named or counted step. */
  lemma ConsistencyBounds(checks: seq<Check>, t: Tally)
    ensures 0 <= Consistency(checks, t) <= 100
    ensures Consistency(checks, t) == 100 <==>
      !FailedStep(checks, NameMatch) && !FailedStep(checks, DobMatch) && t.critical == 0 && t.minor <= 1
  {
  }

  /** The whole checks section: skipped without stored checks; otherwise
      the loop, then −25 and a flag for two or more critical failures. */
  datatype ChecksOutcome = ChecksOutcome(part: Part, consistency: int)

  function ChecksSection(kyc: KycVerification): ChecksOutcome
  {
    if |kyc.checks| == 0 then ChecksOutcome(Part(0, []), 0)
    else
      var t := TallyOf(kyc.checks);
      var multiple := t.critical >= 2;
      ChecksOutcome(Part(t.adjustment + (if multiple then -25 else 0),
                         t.flags + (if multiple then [MultipleCriticalIssues] else [])),
                    Consistency(kyc.checks, t))
  }

  /** Two critical failures cost the two −15s and a further −25, and the
      last flag of the section says so. */
  lemma MultipleCriticalPenalty(kyc: KycVerification)
    requires CountFailed(kyc.checks, true) >= 2
    ensures var o := ChecksSection(kyc);
      && o.part.delta == TallyOf(kyc.checks).adjustment - 25
      && o.part.delta <= |kyc.checks| - 2 - 30 - 25
      && o.part.flags[|o.part.flags| - 1] == MultipleCriticalIssues
  {
    TallyCounts(kyc.checks);
  }

  /** An approved KYC run stores seven passing checks, which add +7 and no
      flag, and leave consistency at 100. */
  lemma ApprovedRunScoresSeven(pan: PanCard, aadhaar: AadhaarCard, performedAt: int)
    requires KycChecks.KycResult(pan, aadhaar, performedAt).overallStatus == Some(Approved)
    ensures ChecksSection(KycChecks.KycResult(pan, aadhaar, performedAt)) == ChecksOutcome(Part(7, []), 100)
  {
    KycChecks.KycResultDecision(pan, aadhaar, performedAt);
    KycChecks.KycResultLayout(pan, aadhaar, performedAt);
    AllPassSection(KycChecks.KycResult(pan, aadhaar, performedAt));
  }

  /** Any run whose checks all passed: +1 each, no flag, consistency 100. */
  lemma AllPassSection(kyc: KycVerification)
    requires |kyc.checks| > 0
    requires forall k :: 0 <= k < |kyc.checks| ==> kyc.checks[k].status == Pass
    ensures ChecksSection(kyc) == ChecksOutcome(Part(|kyc.checks|, []), 100)
  {
    AllPassTally(kyc.checks);
    AllPassFind(kyc.checks, NameMatch);
    AllPassFind(kyc.checks, DobMatch);
  }

  lemma {:induction false} AllPassTally(checks: seq<Check>)
    requires forall k :: 0 <= k < |checks| ==> checks[k].status == Pass
    ensures TallyOf(checks) == Tally(|checks|, 0, 0, |checks|, [])
  {
    if checks != [] {
      AllPassTally(checks[..|checks| - 1]);
    }
  }

  lemma AllPassFind(checks: seq<Check>, st: Step)
    requires forall k :: 0 <= k < |checks| ==> checks[k].status == Pass
    ensures !FailedStep(checks, st)
  {
    var c := FindStep(checks, st);
    if c.Some? {
      var k :| 0 <= k < |checks| && checks[k] == c.value;
    }
  }

  // ---------------------------------------------------------------------
  // Time and behaviour

  /** Account age in days; 0 without a creation time. */
  function AccountAgeDays(now: int, createdAt: Option<int>): real
  {
    if createdAt.Some? then ((now - createdAt.value) as real) / 86400000.0 else 0.0
  }

  function AgePart(days: real): Part
  {
    if days < 1.0 then Part(-20, [VeryNewAccount])
    else if days < 7.0 then Part(-10, [NewAccount])
    else if days > 90.0 then Part(5, [])
    else Part(0, [])
  }

  function OtpPart(status: OtpStatus): Part
  {
    match status
    case OtpFailed => Part(-10, [FailedOtpVerification])
    case OtpVerified => Part(8, [])
    case OtpPending => Part(0, [])
  }

  /** Hours from sign-up to the KYC run, when both times exist. */
  function KycHours(kyc: KycVerification, createdAt: Option<int>): Option<real>
  {
    if kyc.performedAt.Some? && createdAt.Some? then Some(((kyc.performedAt.value - createdAt.value) as real) / 3600000.0)
    else None
  }

  function TimingPart(hours: Option<real>): Part
  {
    if hours.None? then Part(0, [])
    else if hours.value < 1.0 then Part(-15, [UnusuallyFastKyc])
    else if hours.value > 168.0 then Part(-5, [DelayedKyc])
    else Part(0, [])
  }

  // ---------------------------------------------------------------------
  // Clamp, band, decision

  /** `Math.max(0, Math.min(100, score))`. */
  function Clamp(x: int): (r: int)
    ensures 0 <= r <= 100
    ensures 0 <= x <= 100 ==> r == x
    ensures x < 0 ==> r == 0
    ensures x > 100 ==> r == 100
  {
    if x < 0 then 0 else if x > 100 then 100 else x
  }

  lemma ClampMonotone(x: int, y: int)
    requires x <= y
    ensures Clamp(x) <= Clamp(y)
  {
  }

  datatype RiskLevel = Low | Medium | High | CriticalRisk

  function ShowRiskLevel(l: RiskLevel): string
  {
    match l
    case Low => "LOW"
    case Medium => "MEDIUM"
    case High => "HIGH"
    case CriticalRisk => "CRITICAL"
  }

  datatype Band = Band(level: RiskLevel, action: OverallStatus, flags: seq<Flag>)

  function BandOf(score: int): Band
  {
    if score >= 80 then Band(Low, Approved, [])
    else if score >= 60 then Band(Medium, Approved, [])
    else if score >= 40 then Band(High, PendingReview, [HighRiskReview])
    else Band(CriticalRisk, PendingReview, [CriticalRiskReview])
  }

  /** The action is APPROVED exactly from 60 up, never REJECTED, and a
      review flag is pushed exactly when it is not approved. The bands are
      ordered: a higher score never gets a worse level. */
  lemma BandProperties(score: int, other: int)
    ensures BandOf(score).action == Approved <==> score >= 60
    ensures BandOf(score).action != Rejected
    ensures |BandOf(score).flags| == (if score >= 60 then 0 else 1)
    ensures score <= other ==> BandRank(BandOf(other).level) <= BandRank(BandOf(score).level)
  {
  }

  function BandRank(l: RiskLevel): nat
  {
    match l
    case Low => 0
    case Medium => 1
    case High => 2
    case CriticalRisk => 3
  }

  // ---------------------------------------------------------------------
  // The assessment

  /** What `getRiskScore` reads from the user document, with the times
      already turned into days and hours. */
  datatype RiskInput = RiskInput(
    name: string, panCard: Option<PanCard>, aadhaarCard: Option<AadhaarCard>,
    kyc: KycVerification, otpStatus: OtpStatus, accountAgeDays: real, kycHours: Option<real>)

  datatype Assessment = Assessment(
    score: int, level: RiskLevel, action: OverallStatus, flags: seq<Flag>,
    sanctions: bool, peps: bool, adverseMedia: bool, completeness: nat, consistency: int)

  /** The reference definition: every section's change added to 100, the
      sum clamped, the band of the clamped score, and the flags of the
      sections in the order the handler pushes them. */
  function Assess(lists: WatchLists, input: RiskInput): Assessment
  {
    var userName := NormalName(input.name);
    var w := WatchPart(lists, userName);
    var completed := CompletedFields(input.panCard, input.aadhaarCard);
    var c := CompletenessPart(completed);
    var k := ChecksSection(input.kyc);
    var a := AgePart(input.accountAgeDays);
    var o := OtpPart(input.otpStatus);
    var m := TimingPart(input.kycHours);
    var score := Clamp(100 + w.delta + KycRiskAdjustment(input));
    var band := BandOf(score);
    Assessment(score, band.level, band.action,
               w.flags + c.flags + k.part.flags + a.flags + o.flags + m.flags + band.flags,
               AnyName(lists.sanctions, userName), AnyField(lists.peps, userName),
               AnyField(lists.adverseMedia, userName), 25 * completed, k.consistency)
  }

  /** `kycRiskAdjustment`: the sum of the sections after the watch lists. */
  function KycRiskAdjustment(input: RiskInput): int
  {
    CompletenessPart(CompletedFields(input.panCard, input.aadhaarCard)).delta
    + ChecksSection(input.kyc).part.delta + AgePart(input.accountAgeDays).delta
    + OtpPart(input.otpStatus).delta + TimingPart(input.kycHours).delta
  }

  /** With at most eight stored checks the adjustment is at most
      10 + 8 + 5 + 8 = 31: the complete-documents bonus, one point per
      passed check, the established-account bonus and the verified OTP. */
  lemma AdjustmentAtMost(input: RiskInput)
    requires |input.kyc.checks| <= 8
    ensures KycRiskAdjustment(input) <= 31
  {
    if |input.kyc.checks| > 0 {
      TallyCounts(input.kyc.checks);
    }
    CompletenessTiers(CompletedFields(input.panCard, input.aadhaarCard));
  }

  /** The score is always in [0, 100], and the action follows the band. */
  lemma AssessRange(lists: WatchLists, input: RiskInput)
    ensures 0 <= Assess(lists, input).score <= 100
    ensures Assess(lists, input).action == Approved <==> Assess(lists, input).score >= 60
    ensures 0 <= Assess(lists, input).completeness <= 100
  {
    BandProperties(Assess(lists, input).score, 0);
  }

  /** Putting the user's own name on the sanctions list never raises the
      score, reports the match and pushes its flag first. */
  lemma SanctionNeverRaises(lists: WatchLists, input: RiskInput)
    ensures var listed := lists.(sanctions := lists.sanctions + [input.name]);
      && Assess(listed, input).score <= Assess(lists, input).score
      && Assess(listed, input).sanctions
      && Assess(listed, input).flags[0] == SanctionListMatch
  {
    var userName := NormalName(input.name);
    var listed := lists.(sanctions := lists.sanctions + [input.name]);
    AddedSanction(lists, input.name);
    AssessScore(lists, input);
    AssessScore(listed, input);
    AssessSanctionFirst(listed, input);
    var rest := KycRiskAdjustment(input);
    ClampMonotone(100 + WatchPart(listed, userName).delta + rest, 100 + WatchPart(lists, userName).delta + rest);
  }

  /** Adding a name to the sanctions list makes it match and lowers the
      watch-list change by 40, unless it matched already. */
  lemma AddedSanction(lists: WatchLists, name: string)
    ensures var listed := lists.(sanctions := lists.sanctions + [name]);
      && AnyName(listed.sanctions, NormalName(name))
      && WatchPart(listed, NormalName(name)).delta <= WatchPart(lists, NormalName(name)).delta
  {
    var userName := NormalName(name);
    var listed := lists.(sanctions := lists.sanctions + [name]);
    assert listed.sanctions[|lists.sanctions|] == name;
    assert AnyName(listed.sanctions, userName);
    assert WatchPart(listed, userName).delta
        == WatchPart(lists, userName).delta - (if AnyName(lists.sanctions, userName) then 0 else 40);
  }

  /** A sanctions match is reported and its flag is the first pushed. */
  lemma AssessSanctionFirst(lists: WatchLists, input: RiskInput)
    requires AnyName(lists.sanctions, NormalName(input.name))
    ensures Assess(lists, input).sanctions
    ensures Assess(lists, input).flags[0] == SanctionListMatch
  {
    var w := WatchPart(lists, NormalName(input.name));
    assert w.flags == [SanctionListMatch] + w.flags[1..];
    assert Assess(lists, input).flags[0] == w.flags[0];
  }

  /** A name on all three lists is never approved while the stored run
      holds at most eight checks, as every run of the KYC controller does:
      −90 outweighs everything the other sections can add. */
  lemma TripleMatchNeverApproved(lists: WatchLists, input: RiskInput)
    requires AnyName(lists.sanctions, NormalName(input.name))
    requires AnyField(lists.peps, NormalName(input.name))
    requires AnyField(lists.adverseMedia, NormalName(input.name))
    requires |input.kyc.checks| <= 8
    ensures Assess(lists, input).action == PendingReview
  {
    var userName := NormalName(input.name);
    AdjustmentAtMost(input);
    AssessScore(lists, input);
    ClampMonotone(100 + WatchPart(lists, userName).delta + KycRiskAdjustment(input), 41);
    BandProperties(Assess(lists, input).score, 0);
  }

  /** A user who never ran KYC, holds no card, has a pending OTP, is on
      no watch list and signed up between 7 and 90 days ago scores
      100 − 30 = 70 and is recommended for approval. Since the stored
      decision is null, `GetRiskScore` writes APPROVED and sets the account
      status to verified without any check having run. */
  lemma UnrunUserApproved(lists: WatchLists, name: string, otp: OtpVerification, now: int, createdAt: int)
    requires !AnyName(lists.sanctions, NormalName(name))
    requires !AnyField(lists.peps, NormalName(name)) && !AnyField(lists.adverseMedia, NormalName(name))
    requires otp.status == OtpPending
    requires 7 * 86400000 <= now - createdAt <= 90 * 86400000
    ensures var a := Assess(lists, InputOf(name, None, None, NoKycRun, otp, now, Some(createdAt)));
      && a.score == 70 && a.level == Medium && a.action == Approved
      && a.flags == [IncompleteKyc]
      && NoKycRun.overallStatus != Some(a.action)
  {
    var days := AccountAgeDays(now, Some(createdAt));
    assert 7.0 <= days <= 90.0;
  }

  /** The score and the action of an assessment, without its flags. */
  lemma AssessScore(lists: WatchLists, input: RiskInput)
    ensures Assess(lists, input).score
         == Clamp(100 + WatchPart(lists, NormalName(input.name)).delta + KycRiskAdjustment(input))
    ensures Assess(lists, input).action == BandOf(Assess(lists, input).score).action
  {
  }

  // ---------------------------------------------------------------------
  // The handler

  /** The response body of a computed score. `kycStatus` is the value read
      before the write-back. */
  datatype RiskReport = RiskReport(
    userId: string, name: string, riskScore: int, riskLevel: RiskLevel, recommendedAction: OverallStatus,
    flags: seq<Flag>, kycStatus: KycStatus, sanctions: bool, peps: bool, adverseMedia: bool,
    completeness: nat, consistency: int, otpStatus: OtpStatus)

  function ReportOf(userId: string, name: string, kycStatus: KycStatus, otpStatus: OtpStatus, a: Assessment): RiskReport
  {
    RiskReport(userId, name, a.score, a.level, a.action, a.flags, kycStatus, a.sanctions, a.peps,
               a.adverseMedia, a.completeness, a.consistency, otpStatus)
  }

  /** The inputs the handler reads from the user. */
  function InputOf(name: string, pan: Option<PanCard>, aadhaar: Option<AadhaarCard>, kyc: KycVerification,
                   otp: OtpVerification, now: int, createdAt: Option<int>): RiskInput
  {
    RiskInput(name, pan, aadhaar, kyc, otp.status, AccountAgeDays(now, createdAt), KycHours(kyc, createdAt))
  }

  /** `getRiskScore`. A blank id is refused with 400 and an unknown user
      with 404. Otherwise the score is computed section by section and,
      when the stored decision differs from the recommended action, the
      decision and `kycStatus` are overwritten (verified when approved,
      pending otherwise). `now` is the request time and `createdAt` the
      document's timestamp, both in milliseconds. */
  method GetRiskScore(userId: string, user: UserRecord?, lists: WatchLists, now: int, createdAt: Option<int>)
    returns (r: Result<RiskReport, ApiError>)
    modifies user
    ensures Trim(userId) == [] ==> r == Failure(ApiError(BadRequest, "User ID is missing"))
    ensures Trim(userId) != [] && user == null ==> r == Failure(ApiError(NotFound, "User does not exist"))
    ensures user != null && (Trim(userId) == [] || r.Failure?) ==> unchanged(user)
    ensures Trim(userId) != [] && user != null ==>
      var a := Assess(lists, InputOf(old(user.name), old(user.panCard), old(user.aadhaarCard), old(user.kycVerification),
                                     old(user.otpVerification), now, createdAt));
      && r == Success(ReportOf(userId, old(user.name), old(user.kycStatus), old(user.otpVerification.status), a))
      && (old(user.kycVerification).overallStatus != Some(a.action) ==>
            && user.kycVerification == old(user.kycVerification).(overallStatus := Some(a.action))
            && user.kycStatus == (if a.action == Approved then KycVerified else KycPending))
      && (old(user.kycVerification).overallStatus == Some(a.action) ==>
            user.kycVerification == old(user.kycVerification) && user.kycStatus == old(user.kycStatus))
      && user.name == old(user.name) && user.panCard == old(user.panCard) && user.aadhaarCard == old(user.aadhaarCard)
      && user.phoneNumber == old(user.phoneNumber) && user.phoneVerified == old(user.phoneVerified)
      && user.password == old(user.password) && user.otpVerification == old(user.otpVerification)
      && user.modified == old(user.modified)
  {
    if Trim(userId) == [] {
      return Failure(ApiError(BadRequest, "User ID is missing"));
    }
    if user == null {
      return Failure(ApiError(NotFound, "User does not exist"));
    }
    var input := InputOf(user.name, user.panCard, user.aadhaarCard, user.kycVerification,
                         user.otpVerification, now, createdAt);
    var a := ScoreSections(lists, input);
    var report := ReportOf(userId, user.name, user.kycStatus, user.otpVerification.status, a);
    UpdateDecision(user, a.action);
    r := Success(report);
  }

  /** The write-back: when the stored decision differs from the
      recommended action, the decision becomes that action and the account
      status follows it; nothing else changes. `kycVerification` is always
      an object, so a null decision (no KYC run yet) differs from every
      action and is overwritten too. */
  method UpdateDecision(user: UserRecord, action: OverallStatus)
    modifies user
    ensures old(user.kycVerification).overallStatus != Some(action) ==>
      && user.kycVerification == old(user.kycVerification).(overallStatus := Some(action))
      && user.kycStatus == (if action == Approved then KycVerified else KycPending)
    ensures old(user.kycVerification).overallStatus == Some(action) ==>
      user.kycVerification == old(user.kycVerification) && user.kycStatus == old(user.kycStatus)
    ensures && user.name == old(user.name) && user.panCard == old(user.panCard)
            && user.aadhaarCard == old(user.aadhaarCard) && user.phoneNumber == old(user.phoneNumber)
            && user.phoneVerified == old(user.phoneVerified) && user.password == old(user.password)
            && user.otpVerification == old(user.otpVerification) && user.modified == old(user.modified)
  {
    if user.kycVerification.overallStatus != Some(action) {
      user.kycVerification := user.kycVerification.(overallStatus := Some(action));
      user.kycStatus := if action == Approved then KycVerified else KycPending;
    }
  }

  /** The body of the handler between loading the lists and the write-back:
      `score` and `flags` change section by section, in the handler's order. */
  method ScoreSections(lists: WatchLists, input: RiskInput) returns (a: Assessment)
    ensures a == Assess(lists, input)
  {
    var score := 100;
    var userName := NormalName(input.name);
    var w := WatchPart(lists, userName);
    score := score + w.delta;
    var flags := w.flags;

    var adjustment := 0;
    var completed := CompletedFields(input.panCard, input.aadhaarCard);
    var c := CompletenessPart(completed);
    adjustment := adjustment + c.delta;
    flags := flags + c.flags;

    var checksPart := Part(0, []);
    var consistency := 0;
    if |input.kyc.checks| > 0 {
      var checks := input.kyc.checks;
      var t := TallyChecks(checks);
      checksPart := Part(t.adjustment, t.flags);
      consistency := Consistency(checks, t);
      if t.critical >= 2 {
        checksPart := Part(checksPart.delta - 25, checksPart.flags + [MultipleCriticalIssues]);
      }
    }
    assert ChecksOutcome(checksPart, consistency) == ChecksSection(input.kyc);
    adjustment := adjustment + checksPart.delta;
    flags := flags + checksPart.flags;

    var age := AgePart(input.accountAgeDays);
    adjustment := adjustment + age.delta;
    flags := flags + age.flags;
    var otp := OtpPart(input.otpStatus);
    adjustment := adjustment + otp.delta;
    flags := flags + otp.flags;
    var timing := TimingPart(input.kycHours);
    adjustment := adjustment + timing.delta;
    flags := flags + timing.flags;

    assert adjustment == KycRiskAdjustment(input);
    score := score + adjustment;
    score := Clamp(score);
    var band := BandOf(score);
    flags := flags + band.flags;
    a := Assessment(score, band.level, band.action, flags, AnyName(lists.sanctions, userName),
                    AnyField(lists.peps, userName), AnyField(lists.adverseMedia, userName),
                    25 * completed, consistency);
  }

  // ---------------------------------------------------------------------
  // verifyOtpImage

  /** A response the handler sends itself (as opposed to an error it
      throws): the HTTP status, `data.verified` when present, the message. */
  datatype Reply = Reply(statusCode: nat, verified: Option<bool>, message: string)

  /** `verifyOtpImage`. `hasFile` says whether an image came with the
      request and `ocr` is the OTP service's answer (None when the call
      raised). The stored OTP is compared with strict equality. */
  method VerifyOtpImage(email: JsString, user: UserRecord?, hasFile: bool, ocr: Option<JsString>, now: int)
    returns (r: Result<Reply, ApiError>)
    modifies user
    ensures !Truthy(email) ==> r == Failure(ApiError(BadRequest, "Email is required"))
    ensures Truthy(email) && user == null ==> r == Failure(ApiError(NotFound, "User not found"))
    ensures Truthy(email) && user != null && !hasFile ==> r == Failure(ApiError(BadRequest, "Image file is required"))
    ensures Truthy(email) && user != null && hasFile && ocr.None? ==> r == Success(Reply(InternalError, None, "OCR service error"))
    ensures Truthy(email) && user != null && hasFile && ocr.Some? && !Truthy(old(user.otpVerification.otp)) ==>
      r == Success(Reply(BadRequest, None, "No OTP generated for user"))
    ensures user != null && !(Truthy(email) && hasFile && ocr.Some? && Truthy(old(user.otpVerification.otp))) ==>
      unchanged(user)
    ensures Truthy(email) && user != null && hasFile && ocr.Some? && Truthy(old(user.otpVerification.otp)) ==>
      var matched := ocr.value == old(user.otpVerification.otp);
      && r == Success(if matched then Reply(200, Some(true), "OTP verified successfully")
                      else Reply(BadRequest, Some(false), "OTP verification failed"))
      && user.otpVerification == (if matched then old(user.otpVerification).(status := OtpVerified, verifiedAt := Some(now))
                                  else old(user.otpVerification).(status := OtpFailed))
      && user.name == old(user.name) && user.panCard == old(user.panCard) && user.aadhaarCard == old(user.aadhaarCard)
      && user.phoneNumber == old(user.phoneNumber) && user.phoneVerified == old(user.phoneVerified)
      && user.password == old(user.password) && user.kycStatus == old(user.kycStatus)
      && user.kycVerification == old(user.kycVerification) && user.modified == old(user.modified)
  {
    if !Truthy(email) {
      return Failure(ApiError(BadRequest, "Email is required"));
    }
    if user == null {
      return Failure(ApiError(NotFound, "User not found"));
    }
    if !hasFile {
      return Failure(ApiError(BadRequest, "Image file is required"));
    }
    if ocr.None? {
      return Success(Reply(InternalError, None, "OCR service error"));
    }
    var extractedOtp := ocr.value;
    var storedOtp := user.otpVerification.otp;
    if !Truthy(storedOtp) {
      return Success(Reply(BadRequest, None, "No OTP generated for user"));
    }
    if extractedOtp == storedOtp {
      user.otpVerification := user.otpVerification.(status := OtpVerified, verifiedAt := Some(now));
      r := Success(Reply(200, Some(true), "OTP verified successfully"));
    } else {
      user.otpVerification := user.otpVerification.(status := OtpFailed);
      r := Success(Reply(BadRequest, Some(false), "OTP verification failed"));
    }
  }
}
