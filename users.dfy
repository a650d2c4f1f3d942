/** The account lifecycle handlers of server/internal/users/user.go:
    registration with an emailed one-time code, code verification, password
    login, Google login and lookup by email.

    The collaborators the handlers call are inputs here: the clock (`now`),
    the generated code (`otp`) and ObjectID (`newId`), the bcrypt hash of the
    password (`hashed`, None when hashing fails), the bcrypt comparison
    (`passwordMatches(hash, plain)`), token signing (`sign(email, userId,
    username)`, None when signing fails), the outcome of each database write
    and of each email sent. */
module Users {
  import opened Common
  import opened Models
  import opened Http
  import Store

  /** A registration code is valid for ten minutes. */
  const OTP_VALIDITY: int := 10 * 60

  /** An OTP email handed to the mail service. */
  datatype Mail = Mail(to: string, otp: string)

  /** `ShouldBindJSON` succeeds: every `binding:"required"` field is non-empty. */
  predicate RegisterBindable(req: UserRegisterReq) {
    req.username != "" && req.email != "" && req.password != ""
  }

  predicate LoginBindable(req: UserLoginReq) {
    req.email != "" && req.password != ""
  }

  /** VerifyOtp's test: the stored code equals the submitted one and `now`
      is not after the expiry (the expiry instant itself is accepted). */
  predicate OtpAccepted(u: User, otp: string, now: Instant) {
    u.otp == otp && !(now > u.otpExpires)
  }

  /** The record VerifyOtp writes back after a successful check. */
  function MarkVerified(u: User): (v: User)
    ensures v.verified && v.otp == "" && v.otpExpires == ZERO_TIME
    ensures v.(verified := u.verified, otp := u.otp, otpExpires := u.otpExpires) == u
  {
    u.(verified := true, otp := "", otpExpires := ZERO_TIME)
  }

  /** A code accepted once cannot be accepted again: the verified record has
      an empty code, and the request binding refuses an empty one. */
  lemma OtpSingleUse(u: User, otp: string, now: Instant, later: Instant)
    requires OtpAccepted(u, otp, now)
    requires otp != ""
    ensures !OtpAccepted(MarkVerified(u), otp, later)
  {
  }

  /** The expiry boundary: a matching code is accepted at the expiry instant
      and refused one second later. */
  lemma OtpExpiryBoundary(u: User)
    ensures OtpAccepted(u, u.otp, u.otpExpires)
    ensures !OtpAccepted(u, u.otp, u.otpExpires + 1)
  {
  }

  /** RegisterUser (user.go:45-125). */
  method RegisterUser(users: Store.UserCollection, req: UserRegisterReq, now: Instant, otp: string,
                      newId: ObjectId, hashed: Option<string>, writeOk: bool, mailOk: bool)
    returns (status: int, mail: Option<Mail>)
    requires users.Valid()
    requires Store.FreshUserId(users.byEmail, newId)
    modifies users
    ensures users.Valid()
    // a malformed request changes nothing
    ensures !RegisterBindable(req) ==> status == BAD_REQUEST && users.byEmail == old(users.byEmail) && mail == None
    // a verified account is never touched again by registration
    ensures RegisterBindable(req) && req.email in old(users.byEmail) && old(users.byEmail)[req.email].verified ==>
      status == CONFLICT && users.byEmail == old(users.byEmail) && mail == None
    // an unverified account is refreshed in place: no new record, new code, expiry, name and hash
    ensures RegisterBindable(req) && req.email in old(users.byEmail) && !old(users.byEmail)[req.email].verified ==>
      users.byEmail.Keys == old(users.byEmail).Keys &&
      if hashed.Some? && writeOk then
        && users.byEmail == old(users.byEmail)[req.email := old(users.byEmail)[req.email].(
             otp := otp, otpExpires := now + OTP_VALIDITY, username := req.username, password := hashed.value)]
        && !users.byEmail[req.email].verified
        && mail == Some(Mail(req.email, otp))
        && status == (if mailOk then OK else INTERNAL_SERVER_ERROR)
      else
        status == INTERNAL_SERVER_ERROR && users.byEmail == old(users.byEmail) && mail == None
    // a new email gets exactly one new, unverified record
    ensures RegisterBindable(req) && req.email !in old(users.byEmail) ==>
      if hashed.Some? && writeOk then
        && users.byEmail == old(users.byEmail)[req.email := User(
             newId, req.username, req.email, hashed.value, newId.hex, "", otp, now + OTP_VALIDITY, false, false)]
        && mail == Some(Mail(req.email, otp))
        && status == (if mailOk then CREATED else INTERNAL_SERVER_ERROR)
      else
        status == INTERNAL_SERVER_ERROR && users.byEmail == old(users.byEmail) && mail == None
  {
    mail := None;
    if !RegisterBindable(req) {
      return BAD_REQUEST, None;
    }
    if req.email in users.byEmail {
      var existing := users.byEmail[req.email];
      if existing.verified {
        return CONFLICT, None;
      }
      if hashed.None? || !writeOk {
        return INTERNAL_SERVER_ERROR, None;
      }
      users.byEmail := users.byEmail[req.email := existing.(
        otp := otp, otpExpires := now + OTP_VALIDITY, username := req.username, verified := false,
        password := hashed.value)];
      mail := Some(Mail(req.email, otp));
      status := if mailOk then OK else INTERNAL_SERVER_ERROR;
      return;
    }
    if hashed.None? || !writeOk {
      return INTERNAL_SERVER_ERROR, None;
    }
    var userData := User(newId, req.username, req.email, hashed.value, newId.hex, "", otp,
                         now + OTP_VALIDITY, false, false);
    users.byEmail := users.byEmail[req.email := userData];
    mail := Some(Mail(req.email, otp));
    status := if mailOk then CREATED else INTERNAL_SERVER_ERROR;
  }

  /** Why LoginUser refused, one case per refusal of user.go:126-165. The
      body's text differs by case: "Invalid request" is the message of the
      400; "Invalid email or password" and "Email not verified" are the
      `error` of the first two 401s; "Invalid password" is the `message` of
      the third, whose `error` is the bcrypt error; "Failed to generate
      token" is the `error` of the 500. */
  datatype LoginRefusal = InvalidRequest | UnknownEmail | EmailNotVerified | InvalidPassword | TokenFailed

  datatype LoginResponse =
    | LoginRejected(status: int, reason: LoginRefusal)
    | LoggedIn(id: string, username: string, email: string, token: string, image: string)

  /** LoginUser (user.go:126-165): the three refusals are all 401 and are
      checked in the order unknown email, unverified, wrong password. */
  function LoginUser(users: map<string, User>, req: UserLoginReq,
                     passwordMatches: (string, string) -> bool,
                     sign: (string, string, string) -> Option<string>): (r: LoginResponse)
    ensures r.LoggedIn? <==>
      && LoginBindable(req) && req.email in users && users[req.email].verified
      && passwordMatches(users[req.email].password, req.password)
      && sign(users[req.email].email, users[req.email].userId, users[req.email].username).Some?
    ensures r.LoggedIn? ==>
      var u := users[req.email];
      r == LoggedIn(u.userId, u.username, u.email, sign(u.email, u.userId, u.username).value, u.image)
    ensures !LoginBindable(req) ==> r == LoginRejected(BAD_REQUEST, InvalidRequest)
    ensures LoginBindable(req) && req.email !in users ==>
      r == LoginRejected(UNAUTHORIZED, UnknownEmail)
    ensures LoginBindable(req) && req.email in users && !users[req.email].verified ==>
      r == LoginRejected(UNAUTHORIZED, EmailNotVerified)
    ensures LoginBindable(req) && req.email in users && users[req.email].verified
            && !passwordMatches(users[req.email].password, req.password) ==>
      r == LoginRejected(UNAUTHORIZED, InvalidPassword)
    ensures LoginBindable(req) && req.email in users && users[req.email].verified
            && passwordMatches(users[req.email].password, req.password)
            && sign(users[req.email].email, users[req.email].userId, users[req.email].username).None? ==>
      r == LoginRejected(INTERNAL_SERVER_ERROR, TokenFailed)
  {
    if !LoginBindable(req) then LoginRejected(BAD_REQUEST, InvalidRequest)
    else if req.email !in users then LoginRejected(UNAUTHORIZED, UnknownEmail)
    else
      var u := users[req.email];
      if !u.verified then LoginRejected(UNAUTHORIZED, EmailNotVerified)
      else if !passwordMatches(u.password, req.password) then LoginRejected(UNAUTHORIZED, InvalidPassword)
      else match sign(u.email, u.userId, u.username)
        case None => LoginRejected(INTERNAL_SERVER_ERROR, TokenFailed)
        case Some(token) => LoggedIn(u.userId, u.username, u.email, token, u.image)
  }

  datatype UserLookup =
    | UserNotFound
    | UserFound(email: string, username: string, id: string, image: string)

  /** GetUserByEmail (user.go:166-180): the public fields of the stored
      user, or 404. */
  function GetUserByEmail(users: map<string, User>, email: string): (r: UserLookup)
    ensures r.UserFound? <==> email in users
    ensures r.UserFound? ==> r.id == users[email].userId && r.username == users[email].username
                             && r.email == users[email].email && r.image == users[email].image
  {
    if email in users then
      var u := users[email]; UserFound(u.email, u.username, u.userId, u.image)
    else UserNotFound
  }

  /** The profile gothic returns after the provider's callback. */
  datatype GothUser = GothUser(email: string, nickName: string, avatarUrl: string)

  datatype SocialResponse =
    | SocialFailed(status: int)
    | SocialRedirect(token: string, id: string, username: string, email: string, image: string)

  /** The account SocialLoginCallback signs a token for: the stored record
      of a known email (as it was before the google_login update), else the
      new verified, Google-linked record it inserts. */
  function SocialAccount(users: map<string, User>, g: GothUser, newId: ObjectId): (u: User)
    ensures g.email in users ==> u == users[g.email]
    ensures g.email !in users ==>
      && u.id == newId && u.userId == newId.hex && u.email == g.email && u.username == g.nickName
      && u.image == g.avatarUrl && u.verified && u.googleLogin && u.password == "" && u.otp == ""
      && u.otpExpires == ZERO_TIME
  {
    if g.email in users then users[g.email]
    else User(newId, g.nickName, g.email, "", newId.hex, g.avatarUrl, "", ZERO_TIME, true, true)
  }

  /** SocialLoginCallback (user.go:190-266). `auth` is None when gothic
      fails to complete the authentication. */
  method SocialLoginCallback(users: Store.UserCollection, auth: Option<GothUser>, newId: ObjectId,
                             updateOk: bool, insertOk: bool,
                             sign: (string, string, string) -> Option<string>)
    returns (r: SocialResponse)
    requires users.Valid()
    requires Store.FreshUserId(users.byEmail, newId)
    modifies users
    ensures users.Valid()
    ensures auth.None? ==> r == SocialFailed(INTERNAL_SERVER_ERROR) && users.byEmail == old(users.byEmail)
    // an account that already used Google login is left as it is
    ensures auth.Some? && auth.value.email in old(users.byEmail) && old(users.byEmail)[auth.value.email].googleLogin ==>
      users.byEmail == old(users.byEmail)
    // otherwise an existing account gets google_login = true and nothing else (verified is untouched)
    ensures auth.Some? && auth.value.email in old(users.byEmail) && !old(users.byEmail)[auth.value.email].googleLogin ==>
      users.byEmail == (if updateOk then old(users.byEmail)[auth.value.email := old(users.byEmail)[auth.value.email].(googleLogin := true)]
                        else old(users.byEmail))
    // an unknown email is inserted as verified and Google-linked
    ensures auth.Some? && auth.value.email !in old(users.byEmail) ==>
      users.byEmail == (if insertOk then old(users.byEmail)[auth.value.email := User(
                          newId, auth.value.nickName, auth.value.email, "", newId.hex, auth.value.avatarUrl,
                          "", ZERO_TIME, true, true)]
                        else old(users.byEmail))
    // a redirect is given exactly when authentication completed, the google_login
    // update (if one was needed) succeeded and the token was signed
    ensures r.SocialRedirect? <==>
      && auth.Some?
      && (auth.value.email in old(users.byEmail) && !old(users.byEmail)[auth.value.email].googleLogin ==> updateOk)
      && var u := SocialAccount(old(users.byEmail), auth.value, newId);
         sign(u.email, u.userId, u.username).Some?
    // the redirect carries the signed token and the account's public fields
    ensures r.SocialRedirect? ==>
      var u := SocialAccount(old(users.byEmail), auth.value, newId);
      r == SocialRedirect(sign(u.email, u.userId, u.username).value, u.userId, u.username, u.email, u.image)
    // every failure is a 500
    ensures r.SocialFailed? ==> r.status == INTERNAL_SERVER_ERROR
  {
    if auth.None? {
      return SocialFailed(INTERNAL_SERVER_ERROR);
    }
    var g := auth.value;
    var u: User;
    if g.email in users.byEmail {
      u := users.byEmail[g.email];
      if !u.googleLogin {
        if !updateOk {
          return SocialFailed(INTERNAL_SERVER_ERROR);
        }
        users.byEmail := users.byEmail[g.email := u.(googleLogin := true)];
      }
    } else {
      u := User(newId, g.nickName, g.email, "", newId.hex, g.avatarUrl, "", ZERO_TIME, true, true);
      if insertOk {
        users.byEmail := users.byEmail[g.email := u];
      }
    }
    match sign(u.email, u.userId, u.username)
    case None =>
      r := SocialFailed(INTERNAL_SERVER_ERROR);
    case Some(token) =>
      r := SocialRedirect(token, u.userId, u.username, u.email, u.image);
  }

  /** VerifyOtp (user.go:268-300). */
  method VerifyOtp(users: Store.UserCollection, email: string, otp: string, now: Instant, updateOk: bool)
    returns (status: int)
    requires users.Valid()
    modifies users
    ensures users.Valid()
    ensures email == "" || otp == "" ==> status == BAD_REQUEST && users.byEmail == old(users.byEmail)
    ensures email != "" && otp != "" && email !in old(users.byEmail) ==>
      status == NOT_FOUND && users.byEmail == old(users.byEmail)
    ensures email != "" && otp != "" && email in old(users.byEmail) && !OtpAccepted(old(users.byEmail)[email], otp, now) ==>
      status == UNAUTHORIZED && users.byEmail == old(users.byEmail)
    ensures email != "" && otp != "" && email in old(users.byEmail) && OtpAccepted(old(users.byEmail)[email], otp, now) ==>
      if updateOk then
        status == OK && users.byEmail == old(users.byEmail)[email := MarkVerified(old(users.byEmail)[email])]
      else
        status == INTERNAL_SERVER_ERROR && users.byEmail == old(users.byEmail)
    // after a success, no non-empty code is accepted for this account at any time
    ensures status == OK ==> (email in users.byEmail &&
      forall code, t :: code != "" ==> !OtpAccepted(users.byEmail[email], code, t))
  {
    if email == "" || otp == "" {
      return BAD_REQUEST;
    }
    if email !in users.byEmail {
      return NOT_FOUND;
    }
    var u := users.byEmail[email];
    if u.otp != otp || now > u.otpExpires {
      return UNAUTHORIZED;
    }
    if !updateOk {
      return INTERNAL_SERVER_ERROR;
    }
    users.byEmail := users.byEmail[u.email := MarkVerified(u)];
    status := OK;
  }
}
