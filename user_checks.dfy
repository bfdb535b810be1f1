/** The request checks of routers/users.js that depend on the request
    alone: required fields, the email pattern, the Nigerian phone-number
    pattern and the shape of a one-time code. Each pattern is given twice:
    as the set of strings the regular expression matches (a ghost
    predicate that reads like the expression) and as a checker, with a
    lemma that the two agree on every string. */
module UserChecks {
  import opened Common
  import opened Strings
  import opened Numbers

  // ---------------------------------------------------------------------
  // The email pattern /^[^\s@]+@[^\s@]+\.[^\s@]+$/

  /** A character of `[^\s@]`. */
  predicate EmailChar(c: char) {
    c != '@' && !IsJsSpace(c)
  }

  /** The strings the email expression matches: a non-empty part, an '@',
      a non-empty part, a '.', a non-empty part, where every character
      but that '@' is in `[^\s@]` (the '.' is one too). */
  ghost predicate MatchesEmailPattern(s: string) {
    exists at, dot ::
      && 0 < at && at + 1 < dot < |s| - 1
      && s[at] == '@' && s[dot] == '.'
      && forall k :: 0 <= k < |s| && k != at ==> EmailChar(s[k])
  }

  /** The position of the first `c` in `s`, or |s| when there is none. */
  function IndexOf(s: string, c: char): (i: nat)
    ensures i <= |s|
    ensures i < |s| ==> s[i] == c
    ensures forall k :: 0 <= k < i ==> s[k] != c
  {
    if s == [] then 0
    else if s[0] == c then 0
    else 1 + IndexOf(s[1..], c)
  }

  /** `emailRegex.test(s)`: exactly one '@', not first, no white space, and a
      '.' with at least one character on each side between the '@' and the
      end. */
  predicate IsEmail(s: string) {
    var at := IndexOf(s, '@');
    && 0 < at < |s|
    && (forall k | at < k < |s| :: s[k] != '@')
    && (forall k | 0 <= k < |s| :: !IsJsSpace(s[k]))
    && exists dot | at + 1 < dot < |s| - 1 :: s[dot] == '.'
  }

  /** The checker accepts exactly the strings the expression matches. */
  lemma IsEmailMatchesPattern(s: string)
    ensures IsEmail(s) <==> MatchesEmailPattern(s)
  {
    var at := IndexOf(s, '@');
    if IsEmail(s) {
      var dot :| at + 1 < dot < |s| - 1 && s[dot] == '.';
      assert forall k :: 0 <= k < |s| && k != at ==> EmailChar(s[k]);
    }
    if MatchesEmailPattern(s) {
      var a, dot :| && 0 < a && a + 1 < dot < |s| - 1
                    && s[a] == '@' && s[dot] == '.'
                    && forall k :: 0 <= k < |s| && k != a ==> EmailChar(s[k]);
      assert at == a;
      assert forall k | 0 <= k < |s| :: !IsJsSpace(s[k]) by {
        forall k | 0 <= k < |s| ensures !IsJsSpace(s[k]) {
          if k != a {
            assert EmailChar(s[k]);
          }
        }
      }
    }
  }

  // ---------------------------------------------------------------------
  // The phone pattern
  // /^(?:(?:\+?234)|0)(?:70|71|80|81|90|91|809|817|818|908|909)\d{7,8}$/

  const PhonePrefixes: set<string> := {"+234", "234", "0"}
  const OperatorCodes: set<string> :=
    {"70", "71", "80", "81", "90", "91", "809", "817", "818", "908", "909"}

  /** `\d{7,8}`: seven or eight ASCII digits. */
  predicate SubscriberNumber(d: string) {
    7 <= |d| <= 8 && AllDigits(d)
  }

  /** The strings the phone expression matches: a country prefix, an
      operator code and seven or eight digits, in that order. */
  ghost predicate MatchesPhonePattern(s: string) {
    exists k, m ::
      && 0 <= k <= m <= |s|
      && s[..k] in PhonePrefixes
      && s[k..m] in OperatorCodes
      && SubscriberNumber(s[m..])
  }

  /** The length of the country prefix `s` starts with. The three prefixes
      begin with different characters, so at most one applies. */
  function PrefixLength(s: string): Option<nat> {
    if |s| >= 4 && s[..4] == "+234" then Some(4)
    else if |s| >= 3 && s[..3] == "234" then Some(3)
    else if |s| >= 1 && s[0] == '0' then Some(1)
    else None
  }

  /** `phoneRegex.test(s)`: after the prefix, a two- or three-character
      operator code followed by a subscriber number. */
  predicate IsNigerianPhone(s: string) {
    match PrefixLength(s)
    case None => false
    case Some(k) =>
      var r := s[k..];
      || (|r| >= 2 && r[..2] in OperatorCodes && SubscriberNumber(r[2..]))
      || (|r| >= 3 && r[..3] in OperatorCodes && SubscriberNumber(r[3..]))
  }

  lemma PrefixDetermined(s: string, k: nat)
    requires k <= |s| && s[..k] in PhonePrefixes
    ensures PrefixLength(s) == Some(k)
  {
    assert s[0] == s[..k][0];
  }

  /** Every string the checker accepts matches the expression. */
  lemma PhoneCheckerSound(s: string)
    requires IsNigerianPhone(s)
    ensures MatchesPhonePattern(s)
  {
    var k := PrefixLength(s).value;
    var r := s[k..];
    if k == 1 {
      assert s[..1] == [s[0]] == "0";
    }
    assert s[..k] in PhonePrefixes;
    if |r| >= 2 && r[..2] in OperatorCodes && SubscriberNumber(r[2..]) {
      assert s[k..k + 2] == r[..2] && s[k + 2..] == r[2..];
    } else {
      assert s[k..k + 3] == r[..3] && s[k + 3..] == r[3..];
    }
  }

  /** Every string the expression matches is accepted by the checker. */
  lemma PhoneCheckerComplete(s: string)
    requires MatchesPhonePattern(s)
    ensures IsNigerianPhone(s)
  {
    var k, m :| && 0 <= k <= m <= |s|
                && s[..k] in PhonePrefixes
                && s[k..m] in OperatorCodes
                && SubscriberNumber(s[m..]);
    PrefixDetermined(s, k);
    var r := s[k..];
    assert r[..m - k] == s[k..m] && r[m - k..] == s[m..];
    assert m - k == 2 || m - k == 3;
  }

  /** The checker accepts exactly the strings the expression matches. */
  lemma IsNigerianPhoneMatchesPattern(s: string)
    ensures IsNigerianPhone(s) <==> MatchesPhonePattern(s)
  {
    if IsNigerianPhone(s) {
      PhoneCheckerSound(s);
    }
    if MatchesPhonePattern(s) {
      PhoneCheckerComplete(s);
    }
  }

  // ---------------------------------------------------------------------
  // One-time codes and the register checks

  /** `randomstring.generate({length: 6, charset: 'numeric'})`: six digits. */
  predicate IsOtpCode(s: string) {
    |s| == 6 && AllDigits(s)
  }

  /** The body of a register request; an absent field is "". */
  datatype RegisterRequest = RegisterRequest(
    name: string, email: string, password: string, phone: string, role: string,
    marketLocation: string, description: string, localGovernmentArea: string,
    state: string, country: string)

  /** The fields register requires, in the handler's order: seven always,
      three more for a seller. */
  function RequiredFields(req: RegisterRequest): seq<string> {
    [req.name, req.email, req.password, req.phone, req.role, req.state, req.country]
    + (if req.role == "seller" then [req.marketLocation, req.description, req.localGovernmentArea]
       else [])
  }

  /** The checks register makes before it looks at the store, first failure
      first: a missing field, then the email pattern, then the phone
      pattern. None means all three pass. */
  function RegisterPrecheck(req: RegisterRequest): (r: Option<Reply>)
    ensures r.None? <==>
      && req.name != "" && req.email != "" && req.password != "" && req.phone != ""
      && req.role != "" && req.state != "" && req.country != ""
      && (req.role == "seller" ==>
            req.marketLocation != "" && req.description != "" && req.localGovernmentArea != "")
      && MatchesEmailPattern(req.email)
      && MatchesPhonePattern(req.phone)
    ensures r.Some? ==> r.value.code == 400
    ensures (req.name == "" || req.email == "" || req.phone == "") ==>
              r == Some(Reply(400, "All fields are required"))
  {
    IsEmailMatchesPattern(req.email);
    IsNigerianPhoneMatchesPattern(req.phone);
    var fields := RequiredFields(req);
    assert fields[0] == req.name && fields[1] == req.email && fields[2] == req.password;
    assert fields[3] == req.phone && fields[4] == req.role;
    assert fields[5] == req.state && fields[6] == req.country;
    assert req.role == "seller" ==>
      (fields[7] == req.marketLocation && fields[8] == req.description
       && fields[9] == req.localGovernmentArea);
    if exists i | 0 <= i < |fields| :: !Truthy(fields[i]) then
      Some(Reply(400, "All fields are required"))
    else if !IsEmail(req.email) then
      Some(Reply(400, "Invaild email format"))
    else if !IsNigerianPhone(req.phone) then
      Some(Reply(400, "invalid phone number format"))
    else
      None
  }

  /** The checks run in order: a request with a missing field is refused as
      such whatever its email and phone, and one with a malformed email is
      refused for the email whatever its phone. */
  lemma RegisterPrecheckOrder(req: RegisterRequest)
    ensures (exists i :: 0 <= i < |RequiredFields(req)| && RequiredFields(req)[i] == "") ==>
              RegisterPrecheck(req) == Some(Reply(400, "All fields are required"))
    ensures (forall i :: 0 <= i < |RequiredFields(req)| ==> RequiredFields(req)[i] != "")
            && !MatchesEmailPattern(req.email) ==>
              RegisterPrecheck(req) == Some(Reply(400, "Invaild email format"))
    ensures (forall i :: 0 <= i < |RequiredFields(req)| ==> RequiredFields(req)[i] != "")
            && MatchesEmailPattern(req.email) && !MatchesPhonePattern(req.phone) ==>
              RegisterPrecheck(req) == Some(Reply(400, "invalid phone number format"))
  {
    IsEmailMatchesPattern(req.email);
    IsNigerianPhoneMatchesPattern(req.phone);
  }
}
