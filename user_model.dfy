/** The user document and the OTP verification record of models/users.js,
    with the validation Mongoose runs when either is saved. */
module UserModel {
  import opened Common

  const Roles: set<string> := {"user", "admin", "seller"}
  const DefaultRole := "user"
  const SellerRole := "seller"
  const AdminRole := "admin"
  const MinPasswordLength := 8
  const MaxAreaLength := 500

  /** A user document. An absent string field is "", so a field the schema
      gives no default (marketLocation, description, localGovernmentArea)
      is "" when a request leaves it out. Fields with a schema default carry
      it here. The stored `password` is the hash, never the plain text. */
  datatype User = User(
    name: string,
    email: string,
    password: string,
    phone: string,
    marketLocation: string,
    description: string,
    localGovernmentArea: string,
    role: string := DefaultRole,
    state: string := "",
    country: string := "",
    isVerified: bool := false,
    verificationCode: Option<string> := None,
    otp: Option<string> := None,
    otpExpiry: Option<int> := None)

  /** The schema's validators: the required fields (a string is missing when
      it is empty, so the "" defaults of state and country fail), the
      minimum password length, the role enumeration, the seller-only
      required fields, and the length bound on localGovernmentArea. */
  predicate ValidUser(u: User) {
    && u.name != ""
    && u.email != ""
    && |u.password| >= MinPasswordLength
    && u.phone != ""
    && u.role in Roles
    && (u.role == SellerRole ==>
          u.marketLocation != "" && u.description != "" && u.localGovernmentArea != "")
    && |u.localGovernmentArea| <= MaxAreaLength
    && u.state != ""
    && u.country != ""
  }

  /** Seller fields are required exactly when the role is seller: a valid
      non-seller may leave all three out, a seller may not. */
  lemma SellerFieldsRequiredOnlyForSellers(u: User)
    requires ValidUser(u)
    ensures u.role != SellerRole ==>
              ValidUser(u.(marketLocation := "", description := "", localGovernmentArea := ""))
    ensures !ValidUser(u.(role := SellerRole, marketLocation := ""))
    ensures !ValidUser(u.(role := SellerRole, description := ""))
    ensures !ValidUser(u.(role := SellerRole, localGovernmentArea := ""))
  {
  }

  /** A document built from the required fields alone takes every default:
      role user, unverified, no code, no expiry; and because state and
      country default to "" it does not pass validation until both are given. */
  lemma NewUserDefaults(name: string, email: string, password: string, phone: string)
    ensures var u := User(name, email, password, phone, "", "", "");
      && u.role == DefaultRole && !u.isVerified
      && u.verificationCode.None? && u.otp.None? && u.otpExpiry.None?
      && !ValidUser(u)
  {
  }

  /** The verification fields as the handlers of routers/users.js keep
      them: an unverified user holds a current code (copied in both `otp`
      and `verificationCode`) and its expiry; a verified user holds neither
      `verificationCode` nor `otpExpiry` (the stale `otp` stays). */
  predicate OtpStateConsistent(u: User) {
    if u.isVerified then u.verificationCode.None? && u.otpExpiry.None?
    else u.verificationCode.Some? && u.otpExpiry.Some? && u.otp == u.verificationCode
  }

  /** No two users share an email (the schema's unique index). */
  ghost predicate EmailsUnique(users: map<Id, User>) {
    forall a, b :: a in users && b in users && a != b ==> users[a].email != users[b].email
  }

  /** No user other than `self` holds `email` (what the unique index
      demands of a save under `self`). */
  ghost predicate EmailFreeFor(users: map<Id, User>, self: Id, email: string) {
    forall id :: id in users && id != self ==> users[id].email != email
  }

  /** userOTPVerificationSchema: a record of an email, a code and an expiry. */
  datatype OtpRecord = OtpRecord(email: string, otp: string, expiryTime: Option<int>)

  predicate ValidOtpRecord(r: OtpRecord) {
    r.email != "" && r.otp != "" && r.expiryTime.Some?
  }

  /** The unique index on the OTP records' email. */
  ghost predicate OtpEmailsUnique(records: map<Id, OtpRecord>) {
    forall a, b :: a in records && b in records && a != b ==> records[a].email != records[b].email
  }

  /** The unique index on email admits saving a record under `id` into a
      table that keeps the index exactly when no other record holds the
      record's email. */
  lemma OtpIndexAdmits(records: map<Id, OtpRecord>, id: Id, r: OtpRecord)
    requires OtpEmailsUnique(records)
    ensures (OtpEmailsUnique(records[id := r]))
              <==> (forall other :: other in records && other != id ==> records[other].email != r.email)
  {
    var updated := records[id := r];
    if forall other :: other in records && other != id ==> records[other].email != r.email {
      forall a, b | a in updated && b in updated && a != b
        ensures updated[a].email != updated[b].email
      {
        if a != id && b != id {
          assert updated[a] == records[a] && updated[b] == records[b];
        }
      }
    } else {
      var other :| other in records && other != id && records[other].email == r.email;
      assert other in updated && id in updated && updated[other] == records[other] && updated[id] == r;
    }
  }
}
