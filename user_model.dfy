/**
 * The user document of the Express service
 * (server/express_service/src/models/User.model.js): its enumerations and
 * defaults, the setter that keeps empty card numbers out of the sparse
 * unique index, the KYC and OTP sub-documents, and the three pre-save
 * hooks (hash the password when it changed, refuse an Aadhaar or PAN
 * number another user already holds).
 */
module UserModel {
  import opened Wrappers
  import opened JsText

  // ---------------------------------------------------------------------
  // Enumerations. Each Parse is Mongoose's enum validator: it accepts
  // exactly the strings its Show produces.

  datatype KycStatus = KycPending | KycVerified | KycRejected

  function ShowKycStatus(k: KycStatus): string
  {
    match k
    case KycPending => "pending"
    case KycVerified => "verified"
    case KycRejected => "rejected"
  }

  function ParseKycStatus(s: string): (r: Option<KycStatus>)
    ensures forall k :: r == Some(k) <==> ShowKycStatus(k) == s
  {
    if s == "pending" then Some(KycPending)
    else if s == "verified" then Some(KycVerified)
    else if s == "rejected" then Some(KycRejected)
    else None
  }

  const DefaultKycStatus := KycPending

  datatype OverallStatus = Approved | PendingReview | Rejected

  function ShowOverallStatus(o: OverallStatus): string
  {
    match o
    case Approved => "APPROVED"
    case PendingReview => "PENDING_REVIEW"
    case Rejected => "REJECTED"
  }

  function ParseOverallStatus(s: string): (r: Option<OverallStatus>)
    ensures forall o :: r == Some(o) <==> ShowOverallStatus(o) == s
  {
    if s == "APPROVED" then Some(Approved)
    else if s == "PENDING_REVIEW" then Some(PendingReview)
    else if s == "REJECTED" then Some(Rejected)
    else None
  }

  datatype CheckStatus = Pass | Fail | ManualCheck

  function ShowCheckStatus(c: CheckStatus): string
  {
    match c
    case Pass => "PASS"
    case Fail => "FAIL"
    case ManualCheck => "MANUAL_CHECK"
  }

  function ParseCheckStatus(s: string): (r: Option<CheckStatus>)
    ensures forall c :: r == Some(c) <==> ShowCheckStatus(c) == s
  {
    if s == "PASS" then Some(Pass)
    else if s == "FAIL" then Some(Fail)
    else if s == "MANUAL_CHECK" then Some(ManualCheck)
    else None
  }

  datatype OtpStatus = OtpPending | OtpVerified | OtpFailed

  function ShowOtpStatus(o: OtpStatus): string
  {
    match o
    case OtpPending => "pending"
    case OtpVerified => "verified"
    case OtpFailed => "failed"
  }

  function ParseOtpStatus(s: string): (r: Option<OtpStatus>)
    ensures forall o :: r == Some(o) <==> ShowOtpStatus(o) == s
  {
    if s == "pending" then Some(OtpPending)
    else if s == "verified" then Some(OtpVerified)
    else if s == "failed" then Some(OtpFailed)
    else None
  }

  const DefaultOtpStatus := OtpPending

  // ---------------------------------------------------------------------
  // Sub-documents

  /** The setter of `aadhaar_number` and `pan_number`: null and "" are
      stored as undefined, so the sparse index never sees them; any other
      value is stored as given. */
  function EmptyToUndefined(v: JsString): (r: JsString)
    ensures v == Null || v == Str("") ==> r == Undefined
    ensures v != Null && v != Str("") ==> r == v
    ensures r != Null && r != Str("")
  {
    if v == Null || v == Str("") then Undefined else v
  }

  /** Setting a stored value again stores it unchanged. */
  lemma SetterIdempotent(v: JsString)
    ensures EmptyToUndefined(EmptyToUndefined(v)) == EmptyToUndefined(v)
  {
  }

  /** The fields of `panCard` the controllers read or write. */
  datatype PanCard = PanCard(
    panNumber: JsString, fullName: JsString, fatherName: JsString, dateOfBirth: JsString,
    signaturePresent: bool, signatureUrl: string, verified: bool)

  /** The fields of `aadhaarCard` the controllers read or write. */
  datatype AadhaarCard = AadhaarCard(
    aadhaarNumber: JsString, fullName: JsString, dateOfBirth: JsString, address: JsString,
    fatherName: JsString, pinCode: JsString, verified: bool)

  /** The `step` of a check. The schema stores any string; the steps the
      KYC controller writes have their own constructors and every other
      name is kept as it is. */
  datatype Step =
    | PanFormat | AadhaarFormat | NameMatch | DobMatch | AddressValidation
    | FatherNameMatch | PanAadhaarLinkage | ManualReviewRequired
    | OtherStep(name: string)

  function StepName(st: Step): string
  {
    match st
    case PanFormat => "PAN Format"
    case AadhaarFormat => "Aadhaar Format"
    case NameMatch => "Name Match"
    case DobMatch => "DOB Match"
    case AddressValidation => "Address Validation"
    case FatherNameMatch => "Father Name Match"
    case PanAadhaarLinkage => "PAN-Aadhaar Linkage"
    case ManualReviewRequired => "Manual Review Required"
    case OtherStep(name) => name
  }

  /** Reading a stored step name: a known name gives its constructor and
      writing the step back gives the stored string again. */
  function ParseStep(name: string): (r: Step)
    ensures StepName(r) == name
    ensures r.OtherStep? ==> forall st: Step :: !st.OtherStep? ==> StepName(st) != name
  {
    if name == "PAN Format" then PanFormat
    else if name == "Aadhaar Format" then AadhaarFormat
    else if name == "Name Match" then NameMatch
    else if name == "DOB Match" then DobMatch
    else if name == "Address Validation" then AddressValidation
    else if name == "Father Name Match" then FatherNameMatch
    else if name == "PAN-Aadhaar Linkage" then PanAadhaarLinkage
    else if name == "Manual Review Required" then ManualReviewRequired
    else OtherStep(name)
  }

  /** The controller's steps survive a write and a read. */
  lemma StepRoundTrip(st: Step)
    requires !st.OtherStep?
    ensures ParseStep(StepName(st)) == st
  {
  }

  /** The `details` of a check, kept in the shape it was built from;
      `DetailsText` is the string the document stores. */
  datatype Details =
    | NoDetails
    | Versus(left: JsString, right: JsString)
    | Field(value: JsString)
    | Note(text: string)

  /** No details leave the field absent; `Versus` is the template
      `${left} vs ${right}`; a field is stored as it is. */
  function DetailsText(d: Details): JsString
  {
    match d
    case NoDetails => Undefined
    case Versus(left, right) => Str(Interpolate(left) + " vs " + Interpolate(right))
    case Field(value) => value
    case Note(text) => Str(text)
  }

  /** One entry of `kycVerification.checks`. */
  datatype Check = Check(step: Step, status: CheckStatus, details: Details)

  /** `kycVerification`, a nested path: Mongoose always materialises it,
      so a user who never ran KYC holds a null decision, no checks and a
      null time rather than no object. */
  datatype KycVerification = KycVerification(overallStatus: Option<OverallStatus>, checks: seq<Check>, performedAt: Option<int>)

  /** The schema defaults of `kycVerification`: `overall_status` and
      `performed_at` null, `checks` empty. */
  const NoKycRun := KycVerification(None, [], None)

  /** `otpVerification`; times are milliseconds since the epoch. */
  datatype OtpVerification = OtpVerification(
    phoneNumber: JsString, status: OtpStatus, sentAt: Option<int>, verifiedAt: Option<int>, otp: JsString)

  const NewOtpVerification := OtpVerification(Undefined, DefaultOtpStatus, None, None, Undefined)

  /** A user document loaded into memory. `modified` is the set of paths
      Mongoose's `isModified` reports. */
  class UserRecord {
    const id: nat
    var phoneNumber: string
    var phoneVerified: bool
    var name: string
    var password: string
    var panCard: Option<PanCard>
    var aadhaarCard: Option<AadhaarCard>
    var kycStatus: KycStatus
    var kycVerification: KycVerification
    var otpVerification: OtpVerification
    var modified: set<string>

    /** A new document: defaults for every field with one, and every
        given path counts as modified. */
    constructor (id: nat, phoneNumber: string, name: string, password: string)
      ensures this.id == id && this.phoneNumber == phoneNumber && this.name == name && this.password == password
      ensures !phoneVerified && panCard.None? && aadhaarCard.None?
      ensures kycStatus == DefaultKycStatus && kycVerification == NoKycRun
      ensures otpVerification == NewOtpVerification
      ensures modified == {"phoneNumber", "name", PasswordPath}
    {
      this.id := id;
      this.phoneNumber := phoneNumber;
      phoneVerified := false;
      this.name := name;
      this.password := password;
      panCard := None;
      aadhaarCard := None;
      kycStatus := DefaultKycStatus;
      kycVerification := NoKycRun;
      otpVerification := NewOtpVerification;
      modified := {"phoneNumber", "name", PasswordPath};
    }

    function AadhaarNumber(): JsString
      reads this
    {
      if aadhaarCard.Some? then aadhaarCard.value.aadhaarNumber else Undefined
    }

    function PanNumber(): JsString
      reads this
    {
      if panCard.Some? then panCard.value.panNumber else Undefined
    }
  }

  // ---------------------------------------------------------------------
  // Pre-save hooks

  const PasswordPath := "password"
  const AadhaarPath := "aadhaarCard.aadhaar_number"
  const PanPath := "panCard.pan_number"
  const DuplicateKeyCode := 11000

  /** What the collection keeps of each saved user. */
  datatype StoredUser = StoredUser(password: string, aadhaarNumber: JsString, panNumber: JsString)

  /** The error a pre-save hook hands to `next`; both carry code 11000. */
  datatype SaveError = DuplicateAadhaar | DuplicatePan

  function ErrorMessage(e: SaveError): string
  {
    match e
    case DuplicateAadhaar => "Aadhaar number already exists"
    case DuplicatePan => "PAN number already exists"
  }

  /** `findOne({"aadhaarCard.aadhaar_number": v, _id: {$ne: id}})` finds a user. */
  predicate AadhaarTaken(docs: map<nat, StoredUser>, id: nat, v: JsString)
  {
    exists other :: other in docs && other != id && docs[other].aadhaarNumber == v
  }

  predicate PanTaken(docs: map<nat, StoredUser>, id: nat, v: JsString)
  {
    exists other :: other in docs && other != id && docs[other].panNumber == v
  }

  /** The two uniqueness hooks, in their registration order: the Aadhaar
      hook refuses first, the PAN hook only runs when it passed. */
  function UniquenessHooks(docs: map<nat, StoredUser>, id: nat, aadhaar: JsString, pan: JsString,
                           modified: set<string>): (r: Option<SaveError>)
    ensures r == Some(DuplicateAadhaar) <==>
      Truthy(aadhaar) && AadhaarPath in modified && AadhaarTaken(docs, id, aadhaar)
    ensures r == Some(DuplicatePan) <==>
      !(Truthy(aadhaar) && AadhaarPath in modified && AadhaarTaken(docs, id, aadhaar)) &&
      Truthy(pan) && PanPath in modified && PanTaken(docs, id, pan)
  {
    if Truthy(aadhaar) && AadhaarPath in modified && AadhaarTaken(docs, id, aadhaar) then Some(DuplicateAadhaar)
    else if Truthy(pan) && PanPath in modified && PanTaken(docs, id, pan) then Some(DuplicatePan)
    else None
  }

  /** No two users hold the same non-empty Aadhaar number or PAN. */
  ghost predicate NumbersUnique(docs: map<nat, StoredUser>)
  {
    forall x, y :: x in docs && y in docs && x != y ==>
      (Truthy(docs[x].aadhaarNumber) ==> docs[x].aadhaarNumber != docs[y].aadhaarNumber) &&
      (Truthy(docs[x].panNumber) ==> docs[x].panNumber != docs[y].panNumber)
  }

  /** The modified set is honest about the card numbers: a number that
      differs from the stored one (or any number of a new user) is
      reported as modified. */
  predicate ModifiedCovers(docs: map<nat, StoredUser>, id: nat, aadhaar: JsString, pan: JsString,
                           modified: set<string>)
  {
    && (Truthy(aadhaar) && (id !in docs || docs[id].aadhaarNumber != aadhaar) ==> AadhaarPath in modified)
    && (Truthy(pan) && (id !in docs || docs[id].panNumber != pan) ==> PanPath in modified)
  }

  /** The hooks keep the numbers unique: a save they let through cannot
      give a second user a number someone already holds. */
  lemma SavePreservesUniqueness(docs: map<nat, StoredUser>, id: nat, u: StoredUser, modified: set<string>)
    requires NumbersUnique(docs)
    requires ModifiedCovers(docs, id, u.aadhaarNumber, u.panNumber, modified)
    requires UniquenessHooks(docs, id, u.aadhaarNumber, u.panNumber, modified).None?
    ensures NumbersUnique(docs[id := u])
  {
    var nd := docs[id := u];
    forall x, y | x in nd && y in nd && x != y
      ensures Truthy(nd[x].aadhaarNumber) ==> nd[x].aadhaarNumber != nd[y].aadhaarNumber
      ensures Truthy(nd[x].panNumber) ==> nd[x].panNumber != nd[y].panNumber
    {
      if x == id || y == id {
        var other := if x == id then y else x;
        assert other in docs && other != id && nd[other] == docs[other];
        if Truthy(u.aadhaarNumber) {
          if AadhaarPath in modified {
            assert !AadhaarTaken(docs, id, u.aadhaarNumber);
          } else {
            assert docs[id].aadhaarNumber == u.aadhaarNumber;
          }
        }
        if Truthy(u.panNumber) {
          if PanPath in modified {
            assert !PanTaken(docs, id, u.panNumber);
          } else {
            assert docs[id].panNumber == u.panNumber;
          }
        }
      }
    }
  }

  /** A user re-saving its own numbers, or saving with empty or
      unmodified numbers, is never refused. */
  lemma OwnNumbersPass(docs: map<nat, StoredUser>, id: nat, aadhaar: JsString, pan: JsString, modified: set<string>)
    requires NumbersUnique(docs)
    requires id in docs
    requires !Truthy(aadhaar) || AadhaarPath !in modified || docs[id].aadhaarNumber == aadhaar
    requires !Truthy(pan) || PanPath !in modified || docs[id].panNumber == pan
    ensures UniquenessHooks(docs, id, aadhaar, pan, modified).None?
  {
    if Truthy(aadhaar) && AadhaarPath in modified {
      assert forall other :: other in docs && other != id ==> docs[other].aadhaarNumber != aadhaar;
    }
    if Truthy(pan) && PanPath in modified {
      assert forall other :: other in docs && other != id ==> docs[other].panNumber != pan;
    }
  }

  /** The users collection as the pre-save hooks see it. */
  class UserCollection {
    var docs: map<nat, StoredUser>

    constructor ()
      ensures docs == map[]
    {
      docs := map[];
    }

    /** `user.save()`: the password hook hashes the password when it was
        modified (and does so before the uniqueness hooks run, so a refused
        save leaves the in-memory password hashed); then the uniqueness
        hooks decide. A refused save leaves the collection unchanged; an
        accepted one stores the user and clears its modified paths. */
    method Save(user: UserRecord, hash: string -> string) returns (err: Option<SaveError>)
      modifies this, user
      ensures user.password == if PasswordPath in old(user.modified) then hash(old(user.password)) else old(user.password)
      ensures err == UniquenessHooks(old(docs), user.id, old(user.AadhaarNumber()), old(user.PanNumber()), old(user.modified))
      ensures err.Some? ==> docs == old(docs) && user.modified == old(user.modified)
      ensures err.None? ==> docs == old(docs)[user.id := StoredUser(user.password, user.AadhaarNumber(), user.PanNumber())]
      ensures err.None? ==> user.modified == {}
      ensures user.panCard == old(user.panCard) && user.aadhaarCard == old(user.aadhaarCard)
      ensures user.phoneNumber == old(user.phoneNumber) && user.phoneVerified == old(user.phoneVerified)
      ensures user.kycStatus == old(user.kycStatus) && user.kycVerification == old(user.kycVerification)
      ensures user.otpVerification == old(user.otpVerification) && user.name == old(user.name)
    {
      if PasswordPath in user.modified {
        user.password := hash(user.password);
      }
      err := UniquenessHooks(docs, user.id, user.AadhaarNumber(), user.PanNumber(), user.modified);
      if err.None? {
        docs := docs[user.id := StoredUser(user.password, user.AadhaarNumber(), user.PanNumber())];
        user.modified := {};
      }
    }
  }
}
