/** The account handlers of routers/users.js: register, verify-otp,
    resend-otp, login, update-profile and the admin delete. A user moves
    from unverified (holding a current code and its expiry) to verified
    (holding neither). The per-user steps are functions on a User, with
    lemmas about the verification state machine; the handlers are methods
    on the user table of the Database. */
module UsersRouter {
  import opened Common
  import opened Strings
  import opened UserModel
  import opened UserChecks
  import opened Auth
  import opened Tables

  /** A code lives fifteen minutes, in milliseconds. */
  const OtpLifetime := 15 * 60 * 1000

  const VerifySubject := "Verify your account - Eko Seller"
  const ResendSubject := "New verfication code - Eko Seller"

  // ---------------------------------------------------------------------
  // Steps on one user

  /** The document register builds: the request's fields with the name
      trimmed (the schema's `trim`), the hashed password, unverified, and
      the fresh code in both `otp` and `verificationCode`. */
  function NewUser(req: RegisterRequest, code: string, now: int, hash: string -> string): (u: User)
    ensures !u.isVerified && OtpStateConsistent(u)
    ensures u.otp == Some(code) && u.verificationCode == Some(code)
    ensures u.otpExpiry == Some(now + OtpLifetime)
    ensures u.password == hash(req.password)
    ensures u.email == req.email && u.phone == req.phone && u.role == req.role
  {
    var name := Trim(req.name);
    var pw := hash(req.password);
    User(name, req.email, pw, req.phone,
         req.marketLocation, req.description, req.localGovernmentArea,
         req.role, req.state, req.country,
         false, Some(code), Some(code), Some(now + OtpLifetime))
  }

  /** The instant a stored expiry stands for in `otpExpiry < new Date`:
      JavaScript compares a null date as 0. */
  function ExpiryInstant(expiry: Option<int>): int {
    if expiry.Some? then expiry.value else 0
  }

  /** `user.otpExpiry < new Date`: strictly before now. */
  predicate Expired(expiry: Option<int>, now: int) {
    ExpiryInstant(expiry) < now
  }

  /** The two checks verify-otp makes against the stored user, in order:
      the code must equal the stored `verificationCode`, then the expiry
      must not lie strictly before now. None means the code is accepted. */
  function OtpCheck(u: User, otp: string, now: int): (r: Option<Reply>)
    ensures r.None? <==> u.verificationCode == Some(otp) && !Expired(u.otpExpiry, now)
    ensures u.verificationCode != Some(otp) ==> r == Some(Reply(400, "Invalid OTP"))
    ensures u.verificationCode == Some(otp) && Expired(u.otpExpiry, now) ==>
              r == Some(Reply(400, "OTP has expired. Please request a new one"))
  {
    if u.verificationCode != Some(otp) then Some(Reply(400, "Invalid OTP"))
    else if Expired(u.otpExpiry, now) then Some(Reply(400, "OTP has expired. Please request a new one"))
    else None
  }

  /** A successful verify-otp: verified, with `verificationCode` and
      `otpExpiry` cleared and `otp` left as it was. */
  function MarkVerified(u: User): (v: User)
    ensures v.isVerified && OtpStateConsistent(v)
    ensures v.otp == u.otp
    ensures ValidUser(u) ==> ValidUser(v)
  {
    u.(isVerified := true, verificationCode := None, otpExpiry := None)
  }

  /** resend-otp on an unverified user: a fresh code in `otp` and
      `verificationCode`, and a fresh expiry. */
  function Reissued(u: User, code: string, now: int): (v: User)
    requires !u.isVerified
    ensures OtpStateConsistent(v)
    ensures v.verificationCode == Some(code) && v.otpExpiry == Some(now + OtpLifetime)
    ensures v.isVerified == u.isVerified && v.email == u.email && v.password == u.password
    ensures ValidUser(u) ==> ValidUser(v)
  {
    u.(otp := Some(code), verificationCode := Some(code), otpExpiry := Some(now + OtpLifetime))
  }

  /** Once a code has verified a user, submitting it again, at any time, is
      refused as an invalid code, although `otp` still holds it. */
  lemma VerifiedCodeIsSpent(u: User, otp: string, now: int, later: int)
    requires OtpCheck(u, otp, now).None?
    ensures MarkVerified(u).otp == u.otp
    ensures OtpCheck(MarkVerified(u), otp, later) == Some(Reply(400, "Invalid OTP"))
  {
  }

  /** After a resend only the latest code verifies, and it verifies up to
      and including its expiry instant. */
  lemma OnlyLatestCodeVerifies(u: User, code: string, now: int, otp: string, t: int)
    requires !u.isVerified
    ensures OtpCheck(Reissued(u, code, now), otp, t).None? <==> otp == code && t <= now + OtpLifetime
  {
  }

  /** The expiry test is strict: a code submitted at its expiry instant is
      accepted, one millisecond later it is refused as expired. */
  lemma ExpiryInstantIsAccepted(req: RegisterRequest, code: string, now: int, hash: string -> string)
    ensures OtpCheck(NewUser(req, code, now, hash), code, now + OtpLifetime).None?
    ensures OtpCheck(NewUser(req, code, now, hash), code, now + OtpLifetime + 1)
            == Some(Reply(400, "OTP has expired. Please request a new one"))
  {
  }

  /** A verified user cannot be verified by any code. */
  lemma VerifiedUserRefusesEveryCode(u: User, otp: string, now: int)
    requires u.isVerified && OtpStateConsistent(u)
    ensures OtpCheck(u, otp, now) == Some(Reply(400, "Invalid OTP"))
  {
  }

  /** The profile fields update-profile reads from the body; an absent
      field is "". */
  datatype ProfileUpdate = ProfileUpdate(
    name: string, email: string, phone: string, marketLocation: string,
    description: string, localGovernmentArea: string, state: string, country: string)

  /** `user.f = f || user.f` for the eight profile fields; the name goes
      through the schema's trim. */
  function ApplyProfile(u: User, req: ProfileUpdate): (v: User)
    ensures v.role == u.role && v.password == u.password && v.isVerified == u.isVerified
    ensures v.verificationCode == u.verificationCode && v.otp == u.otp && v.otpExpiry == u.otpExpiry
    ensures v.name == Trim(if req.name == "" then u.name else req.name)
    ensures req.email == "" ==> v.email == u.email
    ensures req.email != "" ==> v.email == req.email
    ensures req.phone == "" ==> v.phone == u.phone
    ensures req.phone != "" ==> v.phone == req.phone
    ensures req.marketLocation == "" ==> v.marketLocation == u.marketLocation
    ensures req.marketLocation != "" ==> v.marketLocation == req.marketLocation
    ensures req.description == "" ==> v.description == u.description
    ensures req.description != "" ==> v.description == req.description
    ensures req.localGovernmentArea == "" ==> v.localGovernmentArea == u.localGovernmentArea
    ensures req.localGovernmentArea != "" ==> v.localGovernmentArea == req.localGovernmentArea
    ensures req.state == "" ==> v.state == u.state
    ensures req.state != "" ==> v.state == req.state
    ensures req.country == "" ==> v.country == u.country
    ensures req.country != "" ==> v.country == req.country
  {
    u.(name := Trim(OrElse(req.name, u.name)),
       email := OrElse(req.email, u.email),
       phone := OrElse(req.phone, u.phone),
       marketLocation := OrElse(req.marketLocation, u.marketLocation),
       description := OrElse(req.description, u.description),
       localGovernmentArea := OrElse(req.localGovernmentArea, u.localGovernmentArea),
       state := OrElse(req.state, u.state),
       country := OrElse(req.country, u.country))
  }

  /** An update with every field empty leaves a stored (trimmed) user as it
      was, and no update disturbs the verification state. */
  lemma EmptyProfileUpdateKeepsUser(u: User, req: ProfileUpdate)
    requires u.name == Trim(u.name)
    requires OtpStateConsistent(u)
    ensures ApplyProfile(u, ProfileUpdate("", "", "", "", "", "", "", "")) == u
    ensures OtpStateConsistent(ApplyProfile(u, req))
  {
  }

  // ---------------------------------------------------------------------
  // Lookups by field

  ghost predicate HasEmail(users: map<Id, User>, email: string) {
    exists id :: id in users && users[id].email == email
  }

  /** The user holding `email` with its id, if any (unique by the index). */
  ghost function ByEmail(users: map<Id, User>, email: string): (r: Option<(Id, User)>)
    ensures r.None? <==> !HasEmail(users, email)
    ensures r.Some? ==> r.value.0 in users && users[r.value.0] == r.value.1 && r.value.1.email == email
  {
    if HasEmail(users, email) then
      var id :| id in users && users[id].email == email;
      Some((id, users[id]))
    else None
  }

  /** `User.findOne({email})`: with emails unique, the one user holding the
      email, or nothing. */
  method FindByEmail(db: Database, email: string) returns (found: Option<(Id, User)>)
    requires EmailsUnique(db.users)
    ensures found == ByEmail(db.users, email)
  {
    if !exists id | id in db.users :: db.users[id].email == email {
      return None;
    }
    var id :| id in db.users && db.users[id].email == email;
    found := Some((id, db.users[id]));
  }

  /** `User.findOne({$or: [{email}, {phone}]})` finds a document. */
  ghost predicate EmailOrPhoneTaken(users: map<Id, User>, email: string, phone: string) {
    exists id :: id in users && (users[id].email == email || users[id].phone == phone)
  }

  /** The save at the end of update-profile succeeds: the merged document
      passes validation and its email is not another user's. */
  ghost predicate ProfileSaves(users: map<Id, User>, id: Id, req: ProfileUpdate)
    requires id in users
  {
    var v := ApplyProfile(users[id], req);
    ValidUser(v) && EmailFreeFor(users, id, v.email)
  }

  // ---------------------------------------------------------------------
  // Handlers

  /** The length of a bcrypt hash, whatever the password. */
  const BcryptHashLength := 60

  /** The password hash has bcrypt's fixed length for every password, so
      the schema's minimum length, checked on the stored hash, always holds. */
  ghost predicate BcryptLength(hash: string -> string) {
    forall p :: |hash(p)| == BcryptHashLength
  }

  /** What register decides before it writes: the checks on the request
      first, then the duplicate lookup on email or phone, then the
      schema's validation of the new document. Ok carries the document
      to insert. */
  function RegisterOutcome(users: map<Id, User>, req: RegisterRequest, code: string, now: int,
                           hash: string -> string): (r: Result<User>)
    requires BcryptLength(hash)
    ensures RegisterPrecheck(req).Some? ==> r == Fail(RegisterPrecheck(req).value)
    ensures RegisterPrecheck(req).None? && EmailOrPhoneTaken(users, req.email, req.phone) ==>
              r == Fail(Reply(409, "User with this email or phone number already exists"))
    ensures RegisterPrecheck(req).None? && !EmailOrPhoneTaken(users, req.email, req.phone)
            && !ValidUser(NewUser(req, code, now, hash)) ==>
              r == Fail(Reply(400, "Validation failed"))
    ensures r.Ok? <==>
              && RegisterPrecheck(req).None?
              && !EmailOrPhoneTaken(users, req.email, req.phone)
              && ValidUser(NewUser(req, code, now, hash))
    ensures r.Ok? ==> r.value == NewUser(req, code, now, hash)
    ensures r.Ok? ==> forall id :: id in users ==> users[id].email != req.email && users[id].phone != req.phone
    ensures r.Ok? && IsOtpCode(code) ==> StoredUser(r.value)
    ensures r.Fail? ==> r.reply.code == 400 || r.reply.code == 409
  {
    var rejection := RegisterPrecheck(req);
    if rejection.Some? then Fail(rejection.value)
    else
      var taken := exists id | id in users :: users[id].email == req.email || users[id].phone == req.phone;
      assert taken <==> EmailOrPhoneTaken(users, req.email, req.phone);
      if taken then Fail(Reply(409, "User with this email or phone number already exists"))
      else
        var u := NewUser(req, code, now, hash);
        if !ValidUser(u) then Fail(Reply(400, "Validation failed"))
        else Ok(u)
  }

  /** The password's length is never checked: the schema's minimum applies
      to the stored hash. Two requests that differ only in a non-empty
      password get the same failure, or both succeed with documents that
      differ only in the stored hash. */
  lemma PasswordLengthNeverChecked(users: map<Id, User>, req: RegisterRequest, code: string, now: int,
                                   hash: string -> string, pw: string)
    requires BcryptLength(hash) && req.password != "" && pw != ""
    ensures var r := RegisterOutcome(users, req, code, now, hash);
      var r' := RegisterOutcome(users, req.(password := pw), code, now, hash);
      && (r.Fail? ==> r' == r)
      && (r.Ok? ==> r'.Ok? && r'.value == r.value.(password := hash(pw)))
  {
    var req' := req.(password := pw);
    PrecheckIgnoresPassword(req, pw);
    var u := NewUser(req, code, now, hash);
    assert NewUser(req', code, now, hash) == u.(password := hash(pw));
    assert |hash(pw)| == BcryptHashLength && |hash(req.password)| == BcryptHashLength;
    assert ValidUser(u.(password := hash(pw))) <==> ValidUser(u);
  }

  /** The request checks look only at whether a password is given. */
  lemma PrecheckIgnoresPassword(req: RegisterRequest, pw: string)
    requires req.password != "" && pw != ""
    ensures RegisterPrecheck(req.(password := pw)) == RegisterPrecheck(req)
  {
    var f, f' := RequiredFields(req), RequiredFields(req.(password := pw));
    assert |f'| == |f| && f'[2] == pw && f[2] == req.password;
    assert forall i :: 0 <= i < |f| && i != 2 ==> f'[i] == f[i];
  }

  /** POST /register: a request that passes every check inserts exactly one
      user under a fresh id and mails its code; any other request changes
      nothing. */
  method Register(db: Database, mailer: Mailer, req: RegisterRequest, code: string, now: int,
                  hash: string -> string)
    returns (reply: Reply, userId: Option<Id>)
    requires db.Valid() && IsOtpCode(code) && BcryptLength(hash)
    modifies db`users, db`nextId, mailer
    ensures db.Valid()
    ensures var r := RegisterOutcome(old(db.users), req, code, now, hash);
      && (r.Fail? ==>
            && reply == r.reply && userId.None?
            && db.users == old(db.users) && db.nextId == old(db.nextId) && mailer.sent == old(mailer.sent))
      && (r.Ok? ==>
            && reply == Reply(201, "User registered successfully. Please verify email with the OTP sent")
            && userId == Some(old(db.nextId)) && old(db.nextId) !in old(db.users)
            && db.users == old(db.users)[old(db.nextId) := r.value]
            && mailer.sent == old(mailer.sent) + [Mail(req.email, VerifySubject, code)])
  {
    var outcome := RegisterOutcome(db.users, req, code, now, hash);
    if outcome.Fail? {
      return outcome.reply, None;
    }
    var id := db.IssueId();
    db.PutUser(id, outcome.value);
    mailer.Send(Mail(req.email, VerifySubject, code));
    reply := Reply(201, "User registered successfully. Please verify email with the OTP sent");
    userId := Some(id);
  }

  /** What verify-otp decides, given the user found by email: missing
      fields, unknown email, wrong code, expired code, in that order;
      otherwise the verified document to store. */
  function VerifyOutcome(found: Option<(Id, User)>, email: string, otp: string, now: int): (r: Result<User>)
    ensures email == "" || otp == "" ==> r == Fail(Reply(400, "Email and OTP are required"))
    ensures email != "" && otp != "" && found.None? ==> r == Fail(Reply(404, "User not found"))
    ensures email != "" && otp != "" && found.Some? && OtpCheck(found.value.1, otp, now).Some? ==>
              r == Fail(OtpCheck(found.value.1, otp, now).value)
    ensures r.Ok? <==>
              && email != "" && otp != "" && found.Some?
              && found.value.1.verificationCode == Some(otp) && !Expired(found.value.1.otpExpiry, now)
    ensures r.Ok? ==> r.value == MarkVerified(found.value.1)
  {
    if email == "" || otp == "" then Fail(Reply(400, "Email and OTP are required"))
    else if found.None? then Fail(Reply(404, "User not found"))
    else
      var rejection := OtpCheck(found.value.1, otp, now);
      if rejection.Some? then Fail(rejection.value) else Ok(MarkVerified(found.value.1))
  }

  /** POST /verify-otp: stores the verified user when the code is accepted;
      every failure leaves the table as it was. */
  method VerifyOtp(db: Database, email: string, otp: string, now: int) returns (reply: Reply)
    requires db.Valid()
    modifies db`users
    ensures db.Valid()
    ensures var found := ByEmail(old(db.users), email);
      var r := VerifyOutcome(found, email, otp, now);
      && (r.Fail? ==> reply == r.reply && db.users == old(db.users))
      && (r.Ok? ==>
            reply == Reply(200, "User verified successfully") && db.users == old(db.users)[found.value.0 := r.value])
  {
    var found := FindByEmail(db, email);
    var outcome := VerifyOutcome(found, email, otp, now);
    if outcome.Fail? {
      return outcome.reply;
    }
    var (id, u) := found.value;
    assert StoredUser(u);
    db.PutUser(id, outcome.value);
    reply := Reply(200, "User verified successfully");
  }

  /** What resend-otp decides, given the user found by email: missing
      email, malformed email, unknown email (the handler dereferences null:
      500), already verified, in that order; otherwise the document with a
      fresh code. */
  function ResendOutcome(found: Option<(Id, User)>, email: string, code: string, now: int): (r: Result<User>)
    ensures email == "" ==> r == Fail(Reply(400, "Email is required"))
    ensures email != "" && !MatchesEmailPattern(email) ==> r == Fail(Reply(400, "Invalid email format"))
    ensures MatchesEmailPattern(email) && found.None? ==>
              r == Fail(Reply(500, "An error occurred while resending OTP"))
    ensures MatchesEmailPattern(email) && found.Some? && found.value.1.isVerified ==>
              r == Fail(Reply(400, "User already verified"))
    ensures r.Ok? <==> MatchesEmailPattern(email) && found.Some? && !found.value.1.isVerified
    ensures r.Ok? ==> r.value == Reissued(found.value.1, code, now)
  {
    IsEmailMatchesPattern(email);
    if email == "" then Fail(Reply(400, "Email is required"))
    else if !IsEmail(email) then Fail(Reply(400, "Invalid email format"))
    else if found.None? then Fail(Reply(500, "An error occurred while resending OTP"))
    else if found.value.1.isVerified then Fail(Reply(400, "User already verified"))
    else Ok(Reissued(found.value.1, code, now))
  }

  /** POST /resend-otp: stores the fresh code and mails it when the user is
      still unverified; every failure changes nothing and sends nothing. */
  method ResendOtp(db: Database, mailer: Mailer, email: string, code: string, now: int)
    returns (reply: Reply)
    requires db.Valid() && IsOtpCode(code)
    modifies db`users, mailer
    ensures db.Valid()
    ensures var found := ByEmail(old(db.users), email);
      var r := ResendOutcome(found, email, code, now);
      && (r.Fail? ==> reply == r.reply && db.users == old(db.users) && mailer.sent == old(mailer.sent))
      && (r.Ok? ==>
            && reply == Reply(200, "New OTP has been sent to your email")
            && db.users == old(db.users)[found.value.0 := r.value]
            && mailer.sent == old(mailer.sent) + [Mail(email, ResendSubject, code)])
  {
    var found := FindByEmail(db, email);
    var outcome := ResendOutcome(found, email, code, now);
    if outcome.Fail? {
      return outcome.reply;
    }
    var (id, u) := found.value;
    assert StoredUser(u);
    db.PutUser(id, outcome.value);
    mailer.Send(Mail(email, ResendSubject, code));
    reply := Reply(200, "New OTP has been sent to your email");
  }

  /** What login decides, given the user found by email: a token exactly
      for an existing, verified user whose stored hash matches, checked in
      that order; an unknown email and a wrong password get the same
      answer. */
  function LoginOutcome(found: Option<(Id, User)>, email: string, password: string, now: int,
                        hash: string -> string): (r: Result<SessionToken>)
    ensures email == "" || password == "" ==> r == Fail(Reply(400, "Email and password are required"))
    ensures email != "" && password != "" && found.None? ==> r == Fail(Reply(401, "Invalid email or password"))
    ensures email != "" && password != "" && found.Some? && !found.value.1.isVerified ==>
              r == Fail(Reply(401, "Please verify your email before logging in"))
    ensures email != "" && password != "" && found.Some? && found.value.1.isVerified
            && hash(password) != found.value.1.password ==>
              r == Fail(Reply(401, "Invalid email or password"))
    ensures r.Ok? <==>
              && email != "" && password != "" && found.Some?
              && found.value.1.isVerified && hash(password) == found.value.1.password
    ensures r.Ok? ==>
              r.value == SessionToken(Claims(found.value.0, found.value.1.email, found.value.1.role), now + TokenLifetime)
  {
    if email == "" || password == "" then Fail(Reply(400, "Email and password are required"))
    else if found.None? then Fail(Reply(401, "Invalid email or password"))
    else
      var (id, u) := found.value;
      if !u.isVerified then Fail(Reply(401, "Please verify your email before logging in"))
      else if hash(password) != u.password then Fail(Reply(401, "Invalid email or password"))
      else Ok(SessionToken(Claims(id, u.email, u.role), now + TokenLifetime))
  }

  /** POST /login: reads the user table only. */
  method Login(db: Database, email: string, password: string, now: int, hash: string -> string)
    returns (reply: Reply, token: Option<SessionToken>)
    requires db.Valid()
    ensures var r := LoginOutcome(ByEmail(db.users, email), email, password, now, hash);
      && (r.Fail? ==> reply == r.reply && token.None?)
      && (r.Ok? ==> reply == Reply(200, "Login successful") && token == Some(r.value))
  {
    var found := FindByEmail(db, email);
    var outcome := LoginOutcome(found, email, password, now, hash);
    if outcome.Fail? {
      return outcome.reply, None;
    }
    return Reply(200, "Login successful"), Some(outcome.value);
  }

  /** What update-profile decides before it writes: authentication, the
      user named by the token (the path id plays no part), then the save
      of the merged document. Ok carries the user's id and new document. */
  function ProfileOutcome(users: map<Id, User>, cred: Credential, req: ProfileUpdate)
    : (r: Result<(Id, User)>)
    ensures !cred.Verified? ==> r == Fail(Authenticate(cred).reply)
    ensures cred.Verified? && cred.claims.userId !in users ==> r == Fail(Reply(404, "User not found"))
    ensures cred.Verified? && cred.claims.userId in users && !ProfileSaves(users, cred.claims.userId, req) ==>
              r == Fail(Reply(500, "An error occurred while updating profile"))
    ensures r.Ok? <==> cred.Verified? && cred.claims.userId in users && ProfileSaves(users, cred.claims.userId, req)
    ensures r.Ok? ==> r.value == (cred.claims.userId, ApplyProfile(users[cred.claims.userId], req))
  {
    match Authenticate(cred)
    case Fail(e) => Fail(e)
    case Ok(claims) =>
      var id := claims.userId;
      if id !in users then Fail(Reply(404, "User not found"))
      else
        var v := ApplyProfile(users[id], req);
        var taken := exists other | other in users && other != id :: users[other].email == v.email;
        assert taken <==> !EmailFreeFor(users, id, v.email);
        if !ValidUser(v) || taken then Fail(Reply(500, "An error occurred while updating profile"))
        else Ok((id, v))
  }

  /** PUT /update-profile/:id: replaces the token's user by the merged
      document when the save succeeds; otherwise changes nothing. */
  method UpdateProfile(db: Database, cred: Credential, pathId: IdParam, req: ProfileUpdate)
    returns (reply: Reply)
    requires db.Valid()
    modifies db`users
    ensures db.Valid()
    ensures var r := ProfileOutcome(old(db.users), cred, req);
      && (r.Fail? ==> reply == r.reply && db.users == old(db.users))
      && (r.Ok? ==>
            reply == Reply(200, "Profile updated successfully") && db.users == old(db.users)[r.value.0 := r.value.1])
  {
    var outcome := ProfileOutcome(db.users, cred, req);
    if outcome.Fail? {
      return outcome.reply;
    }
    var (id, v) := outcome.value;
    assert StoredUser(db.users[id]);
    db.PutUser(id, v);
    reply := Reply(200, "Profile updated successfully");
  }

  /** DELETE /:id behind `auth` and `adminAuth`: removes exactly the named
      user; text that is not an id makes the lookup throw (500). */
  method DeleteUser(db: Database, cred: Credential, target: IdParam) returns (reply: Reply)
    requires db.Valid()
    modifies db`users
    ensures db.Valid()
    ensures reply.code != 200 ==> db.users == old(db.users)
    ensures Guard(cred, false).Fail? ==> reply == Guard(cred, false).reply
    ensures Guard(cred, false).Ok? && target.NotAnId? ==>
              reply == Reply(500, "An error occurred while deleting the user")
    ensures Guard(cred, false).Ok? && target.ObjectId? && target.id !in old(db.users) ==>
              reply == Reply(404, "User not found")
    ensures Guard(cred, false).Ok? && target.ObjectId? && target.id in old(db.users) ==>
              reply == Reply(200, "User deleted successfully") && db.users == old(db.users) - {target.id}
  {
    var gate := Guard(cred, false);
    if gate.Fail? {
      return gate.reply;
    }
    if target.NotAnId? {
      return Reply(500, "An error occurred while deleting the user");
    }
    if target.id !in db.users {
      return Reply(404, "User not found");
    }
    db.RemoveUser(target.id);
    reply := Reply(200, "User deleted successfully");
  }
}
