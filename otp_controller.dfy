/**
 * The phone-OTP controller: sending and resending a six-digit code, the
 * one-minute resend cooldown, verifying the code against the stored one,
 * and the text of the KYC status SMS.
 *
 * The SMS service is a parameter `sms` (what `sendVoyageSMS` of the Voyage
 * service answers for a number and a text); `Math.random()` and the clock
 * are the parameters `random` and `now` (milliseconds since the epoch).
 */
module OtpController {
  import opened Wrappers
  import opened JsText
  import opened Http
  import opened UserModel

  /** What `sendVoyageSMS` answers: success, or the error message. */
  datatype SmsOutcome = SmsSent | SmsFailed(error: string)

  type SmsService = (string, string) -> SmsOutcome

  // ---------------------------------------------------------------------
  // The code

  /** `Math.floor(100000 + random * 900000)` for `random` in [0, 1). */
  function OtpValue(random: real): (n: nat)
    requires 0.0 <= random < 1.0
    ensures 100000 <= n <= 999999
  {
    var x := 100000.0 + random * 900000.0;
    assert 100000.0 <= x < 1000000.0;
    x.Floor
  }

  /** The generated code, `OtpValue(random).toString()`: six decimal digits
      spelling a number in [100000, 999999]. */
  function GenerateOtp(random: real): (otp: string)
    requires 0.0 <= random < 1.0
    ensures |otp| == 6 && AllDigits(otp)
    ensures 100000 <= DecimalValue(otp) <= 999999
  {
    var n := OtpValue(random);
    SixDigitRendering(n);
    DecimalRoundTrip(n);
    NatToDecimal(n)
  }

  function OtpMessage(otp: string): string
  {
    "Your VerifyPro OTP is: " + otp
  }

  // ---------------------------------------------------------------------
  // Checks before the SMS is sent

  /** The phone number is required before the user is looked up. */
  function SendChecks(phoneNumber: JsString, userFound: bool): (r: Option<ApiError>)
    ensures r.None? <==> Truthy(phoneNumber) && userFound
    ensures !Truthy(phoneNumber) ==> r == Some(ApiError(BadRequest, "Phone number is required"))
    ensures Truthy(phoneNumber) && !userFound ==> r == Some(ApiError(NotFound, "User not found"))
  {
    if !Truthy(phoneNumber) then Some(ApiError(BadRequest, "Phone number is required"))
    else if !userFound then Some(ApiError(NotFound, "User not found"))
    else None
  }

  const CooldownPeriod := 60000

  /** `Math.ceil((60000 - timeDiff) / 1000)`: the whole seconds left, the
      least count of seconds covering the milliseconds left. */
  function RemainingSeconds(timeDiff: int): (r: nat)
    requires timeDiff < CooldownPeriod
    ensures r >= 1
    ensures (r - 1) * 1000 < CooldownPeriod - timeDiff <= r * 1000
  {
    (CooldownPeriod - timeDiff + 999) / 1000
  }

  /** Within a minute of the last send at most 60 and at least 1 second
      is reported left. */
  lemma RemainingWithinMinute(timeDiff: int)
    requires 0 <= timeDiff < CooldownPeriod
    ensures 1 <= RemainingSeconds(timeDiff) <= 60
  {
  }

  /** The cooldown of `resendOTP`: nothing without a previous send,
      otherwise a 429 until a minute has passed. */
  function ResendCooldown(sentAt: Option<int>, now: int): (r: Option<ApiError>)
    ensures r.None? <==> sentAt.None? || now - sentAt.value >= CooldownPeriod
    ensures r.Some? ==> r == Some(ApiError(TooManyRequests,
      "Please wait " + NatToDecimal(RemainingSeconds(now - sentAt.value)) + " seconds before requesting another OTP"))
  {
    if sentAt.None? then None
    else
      var timeDiff := now - sentAt.value;
      if timeDiff < CooldownPeriod then
        Some(ApiError(TooManyRequests,
          "Please wait " + NatToDecimal(RemainingSeconds(timeDiff)) + " seconds before requesting another OTP"))
      else None
  }

  /** The checks of `resendOTP`: those of `sendOTPForVerification`, then
      the cooldown on the stored sending time. */
  function ResendChecks(phoneNumber: JsString, user: UserRecord?, now: int): (r: Option<ApiError>)
    reads user
    ensures r.None? <==> SendChecks(phoneNumber, user != null).None? && ResendCooldown(user.otpVerification.sentAt, now).None?
    ensures SendChecks(phoneNumber, user != null).Some? ==> r == SendChecks(phoneNumber, user != null)
  {
    var first := SendChecks(phoneNumber, user != null);
    if first.Some? then first else ResendCooldown(user.otpVerification.sentAt, now)
  }

  // ---------------------------------------------------------------------
  // State transitions of `otpVerification`

  /** A successful send or resend: the number, the pending status, the
      sending time and the code are stored; `verifiedAt` is kept. */
  function Pending(v: OtpVerification, phoneNumber: JsString, otp: string, now: int): (w: OtpVerification)
    ensures w.status == OtpPending && w.phoneNumber == phoneNumber && w.otp == Str(otp)
    ensures w.sentAt == Some(now) && w.verifiedAt == v.verifiedAt
  {
    v.(phoneNumber := phoneNumber, status := OtpPending, sentAt := Some(now), otp := Str(otp))
  }

  /** `verifyOTP` after its checks: the stored code is compared with `!==`;
      either way `verifiedAt` is set, and the status becomes verified or
      failed. The second component says whether the codes matched. */
  function Verified(v: OtpVerification, otp: JsString, now: int): (w: (OtpVerification, bool))
    ensures w.1 <==> v.otp == otp
    ensures w.0 == v.(status := if w.1 then OtpVerified else OtpFailed, verifiedAt := Some(now))
  {
    if v.otp != otp then (v.(status := OtpFailed, verifiedAt := Some(now)), false)
    else (v.(status := OtpVerified, verifiedAt := Some(now)), true)
  }

  /** The code just sent is the only one verification accepts, and a
      resend is refused for the next minute. */
  lemma SendThenVerify(v: OtpVerification, phoneNumber: JsString, random: real, now: int, given: JsString, later: int)
    requires 0.0 <= random < 1.0
    ensures var w := Pending(v, phoneNumber, GenerateOtp(random), now);
      && (Verified(w, given, later).1 <==> given == Str(GenerateOtp(random)))
      && (ResendCooldown(w.sentAt, later).Some? <==> later - now < CooldownPeriod)
  {
  }

  // ---------------------------------------------------------------------
  // The handlers

  /** `sendOTPForVerification` with `sendVoyageSMS` in scope: after the
      checks a fresh code is sent; an SMS failure is a 500 and leaves the
      user as it was, a sent SMS stores the pending code. */
  method SendOtp(user: UserRecord?, phoneNumber: JsString, random: real, now: int, sms: SmsService)
    returns (r: Result<JsString, ApiError>)
    requires 0.0 <= random < 1.0
    modifies user
    ensures SendChecks(phoneNumber, user != null).Some? ==> r == Failure(SendChecks(phoneNumber, user != null).value)
    ensures var otp := GenerateOtp(random);
      SendChecks(phoneNumber, user != null).None? ==>
        match sms(phoneNumber.s, OtpMessage(otp))
        case SmsFailed(e) => r == Failure(ApiError(InternalError, "Failed to send OTP: " + e))
        case SmsSent => r == Success(phoneNumber)
    ensures user != null && !(SendChecks(phoneNumber, true).None? && r.Success?) ==> unchanged(user)
    ensures user != null && SendChecks(phoneNumber, true).None? && r.Success? ==>
      && user.otpVerification == Pending(old(user.otpVerification), phoneNumber, GenerateOtp(random), now)
      && user.phoneVerified == old(user.phoneVerified) && user.phoneNumber == old(user.phoneNumber)
      && user.name == old(user.name) && user.password == old(user.password)
      && user.panCard == old(user.panCard) && user.aadhaarCard == old(user.aadhaarCard)
      && user.kycStatus == old(user.kycStatus) && user.kycVerification == old(user.kycVerification)
      && user.modified == old(user.modified)
  {
    var checks := SendChecks(phoneNumber, user != null);
    if checks.Some? {
      return Failure(checks.value);
    }
    var otp := GenerateOtp(random);
    r := SendAndStore(user, phoneNumber, otp, now, sms, "Failed to send OTP: ");
  }

  /** `resendOTP` with `sendVoyageSMS` in scope: the checks of sending and
      the cooldown, then the same sending and storing. */
  method ResendOtp(user: UserRecord?, phoneNumber: JsString, random: real, now: int, sms: SmsService)
    returns (r: Result<JsString, ApiError>)
    requires 0.0 <= random < 1.0
    modifies user
    ensures old(ResendChecks(phoneNumber, user, now)).Some? ==> r == Failure(old(ResendChecks(phoneNumber, user, now)).value)
    ensures var otp := GenerateOtp(random);
      old(ResendChecks(phoneNumber, user, now)).None? ==>
        match sms(phoneNumber.s, OtpMessage(otp))
        case SmsFailed(e) => r == Failure(ApiError(InternalError, "Failed to resend OTP: " + e))
        case SmsSent => r == Success(phoneNumber)
    ensures user != null && !(old(ResendChecks(phoneNumber, user, now)).None? && r.Success?) ==> unchanged(user)
    ensures user != null && old(ResendChecks(phoneNumber, user, now)).None? && r.Success? ==>
      && user.otpVerification == Pending(old(user.otpVerification), phoneNumber, GenerateOtp(random), now)
      && user.phoneVerified == old(user.phoneVerified) && user.phoneNumber == old(user.phoneNumber)
      && user.name == old(user.name) && user.password == old(user.password)
      && user.panCard == old(user.panCard) && user.aadhaarCard == old(user.aadhaarCard)
      && user.kycStatus == old(user.kycStatus) && user.kycVerification == old(user.kycVerification)
      && user.modified == old(user.modified)
  {
    var checks := ResendChecks(phoneNumber, user, now);
    if checks.Some? {
      return Failure(checks.value);
    }
    var otp := GenerateOtp(random);
    r := SendAndStore(user, phoneNumber, otp, now, sms, "Failed to resend OTP: ");
  }

  /** The shared tail of sending and resending: the SMS, then on success
      the `$set` of the pending code. */
  method SendAndStore(user: UserRecord, phoneNumber: JsString, otp: string, now: int, sms: SmsService, failure: string)
    returns (r: Result<JsString, ApiError>)
    requires Truthy(phoneNumber)
    modifies user
    ensures match sms(phoneNumber.s, OtpMessage(otp))
      case SmsFailed(e) => r == Failure(ApiError(InternalError, failure + e))
      case SmsSent => r == Success(phoneNumber)
    ensures r.Failure? ==> unchanged(user)
    ensures r.Success? ==>
      && user.otpVerification == Pending(old(user.otpVerification), phoneNumber, otp, now)
      && user.phoneVerified == old(user.phoneVerified) && user.phoneNumber == old(user.phoneNumber)
      && user.name == old(user.name) && user.password == old(user.password)
      && user.panCard == old(user.panCard) && user.aadhaarCard == old(user.aadhaarCard)
      && user.kycStatus == old(user.kycStatus) && user.kycVerification == old(user.kycVerification)
      && user.modified == old(user.modified)
  {
    var result := sms(phoneNumber.s, OtpMessage(otp));
    if result.SmsFailed? {
      return Failure(ApiError(InternalError, failure + result.error));
    }
    user.otpVerification := Pending(user.otpVerification, phoneNumber, otp, now);
    r := Success(phoneNumber);
  }

  /** `verifyOTP`: both fields are required, then the user; a code other
      than the stored one marks the OTP failed and is a 400, the stored code
      marks it verified and the phone as verified. The phone number of the
      request is only checked for presence. */
  method VerifyOtp(user: UserRecord?, phoneNumber: JsString, otp: JsString, now: int)
    returns (r: Result<(), ApiError>)
    modifies user
    ensures !Truthy(phoneNumber) || !Truthy(otp) ==> r == Failure(ApiError(BadRequest, "Phone number and OTP are required"))
    ensures Truthy(phoneNumber) && Truthy(otp) && user == null ==> r == Failure(ApiError(NotFound, "User not found"))
    ensures user != null && (!Truthy(phoneNumber) || !Truthy(otp)) ==> unchanged(user)
    ensures user != null && Truthy(phoneNumber) && Truthy(otp) ==>
      var w := Verified(old(user.otpVerification), otp, now);
      && r == (if w.1 then Success(()) else Failure(ApiError(BadRequest, "OTP verification failed: Invalid OTP")))
      && user.otpVerification == w.0
      && user.phoneVerified == (w.1 || old(user.phoneVerified))
      && user.phoneNumber == old(user.phoneNumber) && user.name == old(user.name) && user.password == old(user.password)
      && user.panCard == old(user.panCard) && user.aadhaarCard == old(user.aadhaarCard)
      && user.kycStatus == old(user.kycStatus) && user.kycVerification == old(user.kycVerification)
      && user.modified == old(user.modified)
  {
    if !Truthy(phoneNumber) || !Truthy(otp) {
      return Failure(ApiError(BadRequest, "Phone number and OTP are required"));
    }
    if user == null {
      return Failure(ApiError(NotFound, "User not found"));
    }
    var w := Verified(user.otpVerification, otp, now);
    user.otpVerification := w.0;
    if !w.1 {
      return Failure(ApiError(BadRequest, "OTP verification failed: Invalid OTP"));
    }
    user.phoneVerified := true;
    r := Success(());
  }

  // ---------------------------------------------------------------------
  // The KYC status SMS

  const DefaultRejectedReason := "Please resubmit your documents."

  function Greeting(userName: string): string
  {
    "Hello " + userName + ", your KYC verification "
  }

  /** The `switch` of `sendKYCStatusSMS` on the stored status string. */
  function KycStatusMessage(userName: string, kycStatus: string, rejectedReason: JsString): (r: Result<string, ApiError>)
    ensures r.Success? <==> ParseKycStatus(kycStatus).Some?
    ensures r.Failure? ==> r.error == ApiError(BadRequest, "Invalid KYC status")
    ensures r.Success? ==> Greeting(userName) <= r.value
    ensures kycStatus == "rejected" ==>
      r.value == Greeting(userName) + "was rejected. Reason: "
                 + (if Truthy(rejectedReason) then Interpolate(rejectedReason) else DefaultRejectedReason)
  {
    if kycStatus == "verified" then
      Success(Greeting(userName) + ("has been approved! " + "You can now access all features of VerifyPro."))
    else if kycStatus == "rejected" then
      Success(Greeting(userName) + "was rejected. Reason: "
              + Interpolate(if Truthy(rejectedReason) then rejectedReason else Str(DefaultRejectedReason)))
    else if kycStatus == "pending" then
      Success(Greeting(userName) + ("is under review. " + "We'll notify you once it's processed."))
    else Failure(ApiError(BadRequest, "Invalid KYC status"))
  }

  /** Each of the three statuses gets its own text: the first character
      after the greeting differs. */
  lemma KycMessagesDistinct(userName: string, rejectedReason: JsString, s1: KycStatus, s2: KycStatus)
    requires s1 != s2
    ensures KycStatusMessage(userName, ShowKycStatus(s1), rejectedReason).value
         != KycStatusMessage(userName, ShowKycStatus(s2), rejectedReason).value
  {
    MessageAfterGreeting(userName, rejectedReason, s1);
    MessageAfterGreeting(userName, rejectedReason, s2);
  }

  lemma MessageAfterGreeting(userName: string, rejectedReason: JsString, s: KycStatus)
    ensures var m := KycStatusMessage(userName, ShowKycStatus(s), rejectedReason).value;
      |m| > |Greeting(userName)| && m[|Greeting(userName)|] == FirstWord(s)
  {
    var g := Greeting(userName);
    var t := StatusText(s, rejectedReason);
    MessageOfStatus(userName, rejectedReason, s);
    StatusTextStart(s, rejectedReason);
    assert (g + t)[|g|] == t[0];
  }

  /** The text after the greeting for each status. */
  function StatusText(s: KycStatus, rejectedReason: JsString): string
  {
    match s
    case KycVerified => "has been approved! " + "You can now access all features of VerifyPro."
    case KycRejected =>
      "was rejected. Reason: " + Interpolate(if Truthy(rejectedReason) then rejectedReason else Str(DefaultRejectedReason))
    case KycPending => "is under review. " + "We'll notify you once it's processed."
  }

  /** The message of a status is the greeting followed by its text. */
  lemma MessageOfStatus(userName: string, rejectedReason: JsString, s: KycStatus)
    ensures KycStatusMessage(userName, ShowKycStatus(s), rejectedReason)
         == Success(Greeting(userName) + StatusText(s, rejectedReason))
  {
    match s {
    case KycVerified =>
    case KycRejected =>
      var reason := Interpolate(if Truthy(rejectedReason) then rejectedReason else Str(DefaultRejectedReason));
      assert Greeting(userName) + "was rejected. Reason: " + reason
          == Greeting(userName) + ("was rejected. Reason: " + reason);
    case KycPending =>
    }
  }

  lemma StatusTextStart(s: KycStatus, rejectedReason: JsString)
    ensures |StatusText(s, rejectedReason)| > 0 && StatusText(s, rejectedReason)[0] == FirstWord(s)
  {
    match s {
    case KycVerified =>
      var text := "has been approved! ";
      assert text[0] == 'h';
    case KycRejected =>
      var head := "was rejected. Reason: ";
      var reason := Interpolate(if Truthy(rejectedReason) then rejectedReason else Str(DefaultRejectedReason));
      assert StatusText(s, rejectedReason) == head + reason;
      assert (head + reason)[0] == head[0] == 'w';
    case KycPending =>
      var text := "is under review. ";
      assert text[0] == 'i';
    }
  }

  /** The first letter of each status's text after the greeting. */
  function FirstWord(s: KycStatus): char
  {
    match s
    case KycVerified => 'h'
    case KycRejected => 'w'
    case KycPending => 'i'
  }

  /** `sendKYCStatusSMS` with `sendVoyageSMS` in scope: the text of the
      stored status goes to the user's number; nothing is stored. */
  function KycStatusSms(user: UserRecord?, rejectedReason: JsString, sms: SmsService): (r: Result<string, ApiError>)
    reads user
    ensures user == null ==> r == Failure(ApiError(NotFound, "User not found"))
    ensures user != null ==>
      var m := KycStatusMessage(user.name, ShowKycStatus(user.kycStatus), rejectedReason);
      && m.Success?
      && (r.Success? <==> sms(user.phoneNumber, m.value) == SmsSent)
      && (r.Success? ==> r.value == m.value)
      && (r.Failure? ==> r.error == ApiError(InternalError, "Failed to send SMS: " + sms(user.phoneNumber, m.value).error))
  {
    if user == null then Failure(ApiError(NotFound, "User not found"))
    else
      var m := KycStatusMessage(user.name, ShowKycStatus(user.kycStatus), rejectedReason);
      match sms(user.phoneNumber, m.value)
      case SmsFailed(e) => Failure(ApiError(InternalError, "Failed to send SMS: " + e))
      case SmsSent => Success(m.value)
  }

  // ---------------------------------------------------------------------
  // The handlers as written

  /** The controller calls `sendVoyageSMS` without importing it: the call
      throws a ReferenceError, which each handler's `catch` turns into a
      500 with the error's message. */
  const UnboundSms := ApiError(InternalError, "sendVoyageSMS is not defined")

  /** `sendOTPForVerification` as written: it never sends and never
      stores a code. */
  function SendOtpAsWritten(user: UserRecord?, phoneNumber: JsString): (r: Result<JsString, ApiError>)
    ensures r.Failure?
    ensures SendChecks(phoneNumber, user != null).None? ==> r == Failure(UnboundSms)
    ensures SendChecks(phoneNumber, user != null).Some? ==> r == Failure(SendChecks(phoneNumber, user != null).value)
  {
    var checks := SendChecks(phoneNumber, user != null);
    if checks.Some? then Failure(checks.value) else Failure(UnboundSms)
  }

  /** `resendOTP` as written: past the cooldown it fails the same way. */
  function ResendOtpAsWritten(user: UserRecord?, phoneNumber: JsString, now: int): (r: Result<JsString, ApiError>)
    reads user
    ensures r.Failure?
    ensures ResendChecks(phoneNumber, user, now).None? ==> r == Failure(UnboundSms)
    ensures ResendChecks(phoneNumber, user, now).Some? ==> r == Failure(ResendChecks(phoneNumber, user, now).value)
  {
    var checks := ResendChecks(phoneNumber, user, now);
    if checks.Some? then Failure(checks.value) else Failure(UnboundSms)
  }

  /** `sendKYCStatusSMS` as written: every stored status has a text (see
      `KycStatusSms`), so every found user gets a 500 instead of the SMS. */
  function KycStatusSmsAsWritten(user: UserRecord?, rejectedReason: JsString): (r: Result<string, ApiError>)
    reads user
    ensures r.Failure?
    ensures user != null ==> r == Failure(UnboundSms)
  {
    if user == null then Failure(ApiError(NotFound, "User not found"))
    else Failure(UnboundSms)
  }

  /** Where the SMS service answers, the corrected handlers succeed on
      every request the written ones refuse with the unbound name. */
  lemma ImportRestoresSending(user: UserRecord?, phoneNumber: JsString, rejectedReason: JsString, sms: SmsService)
    requires user != null
    requires forall to, text :: sms(to, text) == SmsSent
    ensures KycStatusSmsAsWritten(user, rejectedReason) == Failure(UnboundSms)
    ensures KycStatusSms(user, rejectedReason, sms).Success?
  {
  }
}
