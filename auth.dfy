/**
  The authentication layer of the chat server: the three middlewares that
  decide whether a request may go on (`requireAuth`, `requireApiKey`,
  `requireAuthOrApiKey`) and the decision chains of the signup, verify-otp and
  login handlers.

  `bcrypt.compare(plain, hash)` is the parameter `compare`; the output of
  `bcrypt.hash` for a password is passed in as `passwordHash`.  The request
  session is `Option<SessionData>`: none when the request carries no session
  object at all.
*/
module Auth {

  import opened Wrappers
  import opened Seqs
  import opened Storage

  const BadRequest: nat := 400
  const Unauthorized: nat := 401
  const NotFound: nat := 404

  const AuthenticationRequired := "Authentication required"
  const ApiKeyRequired := "API key required. Use: Authorization: Bearer <your-api-key>"
  const InvalidApiKey := "Invalid API key"
  const SessionOrApiKeyRequired :=
    "Authentication required. Login via session or provide API key using: Authorization: Bearer <your-api-key>"
  const EmailAlreadyRegistered := "Email already registered"
  const UserNotFound := "User not found"
  const EmailAlreadyVerified := "Email already verified"
  const NoValidOtp := "No valid OTP found. Please request a new one"
  const OtpExpired := "OTP has expired"
  const InvalidOtp := "Invalid OTP"
  const InvalidCredentials := "Invalid email or password"

  const SignupSucceeded := "Account created successfully"
  const VerifySucceeded := "Email verified successfully"
  const LoginSucceeded := "Login successful"

  const BearerPrefix := "Bearer "

  /** `bcrypt.compare(plain, hash)`. */
  type Compare = (string, string) -> bool

  datatype SessionData = SessionData(userId: Option<Id>, userEmail: Option<string>)

  datatype Request = Request(authorization: Option<string>, session: Option<SessionData>)

  /** What a middleware does: call `next` with the request session, or answer with an error. */
  datatype Outcome = Next(session: Option<SessionData>) | Reject(status: nat, error: string)

  datatype UserView = UserView(id: Id, email: string, isVerified: bool)

  /** A handler's JSON answer: a success body, or an error status and message. */
  datatype Reply = Ok(message: string, user: UserView) | Fail(status: nat, error: string)

  /** The session carries a user id (`req.session?.userId` is truthy). */
  predicate SignedIn(session: Option<SessionData>)
    ensures SignedIn(session) ==> session.Some?
  {
    session.Some? && session.value.userId.Some?
  }

  /** The session after a handler signs `user` in: only a session that exists is written to. */
  function SignIn(session: Option<SessionData>, user: User): (r: Option<SessionData>)
    ensures r.Some? <==> session.Some?
    ensures SignedIn(r) <==> session.Some?
    ensures r.Some? ==> r.value.userId == Some(user.id) && r.value.userEmail == Some(user.email)
  {
    if session.Some? then Some(SessionData(Some(user.id), Some(user.email))) else None
  }

  /** `requireAuth`: on to `next` exactly when the session carries a user id, otherwise 401. */
  function RequireAuth(session: Option<SessionData>): (o: Outcome)
    ensures o.Next? <==> SignedIn(session)
    ensures o.Next? ==> o.session == session
    ensures o.Reject? ==> o == Reject(Unauthorized, AuthenticationRequired)
  {
    if !SignedIn(session) then Reject(Unauthorized, AuthenticationRequired) else Next(session)
  }

  /**
    The API key an `Authorization` header carries: present exactly when the
    header starts with "Bearer ", and then the header with those seven
    characters removed.
  */
  function BearerToken(header: Option<string>): (r: Option<string>)
    ensures r.Some? <==> header.Some? && |BearerPrefix| <= |header.value| && header.value[..|BearerPrefix|] == BearerPrefix
    ensures r.Some? ==> header.value == BearerPrefix + r.value
  {
    if header.Some? && |BearerPrefix| <= |header.value| && header.value[..|BearerPrefix|] == BearerPrefix
    then
      assert header.value == header.value[..|BearerPrefix|] + header.value[|BearerPrefix|..];
      Some(header.value[|BearerPrefix|..])
    else None
  }

  /** The first stored key, in table order, whose hash `apiKey` matches. */
  function MatchingKey(keys: seq<ApiKey>, apiKey: string, compare: Compare): (r: Option<ApiKey>)
    ensures r.None? <==> forall k :: k in keys ==> !compare(apiKey, k.keyHash)
    ensures r.Some? ==> exists i :: 0 <= i < |keys| && keys[i] == r.value && compare(apiKey, keys[i].keyHash)
                                    && forall j :: 0 <= j < i ==> !compare(apiKey, keys[j].keyHash)
  {
    Find(keys, (k: ApiKey) => compare(apiKey, k.keyHash))
  }

  /** The linear scan of `requireApiKey`: stops at the first key whose hash matches. */
  method ScanApiKeys(allKeys: seq<ApiKey>, apiKey: string, compare: Compare) returns (matched: Option<ApiKey>)
    ensures matched == MatchingKey(allKeys, apiKey, compare)
  {
    matched := None;
    var i := 0;
    while i < |allKeys|
      invariant 0 <= i <= |allKeys|
      invariant forall j :: 0 <= j < i ==> !compare(apiKey, allKeys[j].keyHash)
    {
      if compare(apiKey, allKeys[i].keyHash) {
        matched := Some(allKeys[i]);
        break;
      }
      i := i + 1;
    }
  }

  /**
    The decision of `requireApiKey` on a key table and a user table: 401 with
    "API key required" without a Bearer header, 401 "Invalid API key" when no
    key matches or the owner of the first matching key no longer exists, and
    otherwise on to `next` as that owner.
  */
  function ApiKeyVerdict(header: Option<string>, keys: seq<ApiKey>, store: MemStorage, compare: Compare): (o: Outcome)
    reads store
    ensures o.Reject? ==> o.status == Unauthorized
    ensures BearerToken(header).None? ==> o == Reject(Unauthorized, ApiKeyRequired)
    ensures BearerToken(header).Some? && (forall k :: k in keys ==> !compare(BearerToken(header).value, k.keyHash))
            ==> o == Reject(Unauthorized, InvalidApiKey)
    ensures var t := BearerToken(header);
      t.Some? && MatchingKey(keys, t.value, compare).Some? ==>
        var owner := store.GetUserById(MatchingKey(keys, t.value, compare).value.userId);
        && (owner.None? ==> o == Reject(Unauthorized, InvalidApiKey))
        && (owner.Some? ==> o == Next(Some(SessionData(Some(owner.value.id), Some(owner.value.email)))))
    ensures o.Next? ==>
      && BearerToken(header).Some?
      && MatchingKey(keys, BearerToken(header).value, compare).Some?
      && exists u :: u in store.users && u.id == MatchingKey(keys, BearerToken(header).value, compare).value.userId &&
           o.session == Some(SessionData(Some(u.id), Some(u.email)))
  {
    match BearerToken(header)
    case None => Reject(Unauthorized, ApiKeyRequired)
    case Some(apiKey) =>
      match MatchingKey(keys, apiKey, compare)
      case None => Reject(Unauthorized, InvalidApiKey)
      case Some(key) =>
        match store.GetUserById(key.userId)
        case None => Reject(Unauthorized, InvalidApiKey)
        case Some(user) => Next(Some(SessionData(Some(user.id), Some(user.email))))
  }

  /**
    The key table after `requireApiKey`: the first matching key's hash is
    stamped with `now`, whether or not its owner still exists; without a match
    the table is untouched.
  */
  function KeysAfterLookup(header: Option<string>, keys: seq<ApiKey>, compare: Compare, now: nat): (r: seq<ApiKey>)
    ensures BearerToken(header).None? ==> r == keys
    ensures BearerToken(header).Some? && MatchingKey(keys, BearerToken(header).value, compare).None? ==> r == keys
    ensures BearerToken(header).Some? && MatchingKey(keys, BearerToken(header).value, compare).Some? ==>
      r == WithLastUsed(keys, MatchingKey(keys, BearerToken(header).value, compare).value.keyHash, now)
  {
    match BearerToken(header)
    case None => keys
    case Some(apiKey) =>
      match MatchingKey(keys, apiKey, compare)
      case None => keys
      case Some(key) => WithLastUsed(keys, key.keyHash, now)
  }

  /** `requireApiKey`. */
  method RequireApiKey(req: Request, apiKeys: ApiKeyTable, store: MemStorage, compare: Compare, now: nat)
    returns (out: Outcome)
    modifies apiKeys
    ensures out == ApiKeyVerdict(req.authorization, old(apiKeys.keys), store, compare)
    ensures apiKeys.keys == KeysAfterLookup(req.authorization, old(apiKeys.keys), compare, now)
  {
    var authHeader := req.authorization;
    if authHeader.None? || !(|BearerPrefix| <= |authHeader.value| && authHeader.value[..|BearerPrefix|] == BearerPrefix) {
      return Reject(Unauthorized, ApiKeyRequired);
    }
    var apiKey := authHeader.value[|BearerPrefix|..];
    assert BearerToken(authHeader) == Some(apiKey);

    var allKeys := apiKeys.keys;
    var matchedKey := ScanApiKeys(allKeys, apiKey, compare);
    if matchedKey.None? {
      return Reject(Unauthorized, InvalidApiKey);
    }

    apiKeys.UpdateApiKeyLastUsed(matchedKey.value.keyHash, now);

    var user := store.GetUserById(matchedKey.value.userId);
    if user.None? {
      return Reject(Unauthorized, InvalidApiKey);
    }

    out := Next(Some(SessionData(Some(user.value.id), Some(user.value.email))));
  }

  /**
    `requireAuthOrApiKey`: a signed-in session goes on untouched; otherwise a
    Bearer header is handed to `requireApiKey`; otherwise 401.
  */
  method RequireAuthOrApiKey(req: Request, apiKeys: ApiKeyTable, store: MemStorage, compare: Compare, now: nat)
    returns (out: Outcome)
    modifies apiKeys
    ensures SignedIn(req.session) ==> out == Next(req.session) && apiKeys.keys == old(apiKeys.keys)
    ensures !SignedIn(req.session) && BearerToken(req.authorization).Some? ==>
      && out == ApiKeyVerdict(req.authorization, old(apiKeys.keys), store, compare)
      && apiKeys.keys == KeysAfterLookup(req.authorization, old(apiKeys.keys), compare, now)
    ensures !SignedIn(req.session) && BearerToken(req.authorization).None? ==>
      out == Reject(Unauthorized, SessionOrApiKeyRequired) && apiKeys.keys == old(apiKeys.keys)
  {
    if SignedIn(req.session) {
      return Next(req.session);
    }
    var authHeader := req.authorization;
    if authHeader.Some? && |BearerPrefix| <= |authHeader.value| && authHeader.value[..|BearerPrefix|] == BearerPrefix {
      out := RequireApiKey(req, apiKeys, store, compare, now);
      return;
    }
    out := Reject(Unauthorized, SessionOrApiKeyRequired);
  }

  /**
    The signup handler: an email that is already registered gives 400 and
    creates nothing; otherwise a new user is created, verified at once (OTP
    verification is switched off) and signed in.
  */
  method Signup(store: MemStorage, session: Option<SessionData>, email: string, passwordHash: string, now: nat)
    returns (reply: Reply, session': Option<SessionData>)
    requires store.Valid()
    modifies store
    ensures store.Valid()
    ensures old(store.GetUserByEmail(email)).Some? ==>
      reply == Fail(BadRequest, EmailAlreadyRegistered) && session' == session && unchanged(store)
    ensures old(store.GetUserByEmail(email)).None? ==>
      var user := User(old(store.nextId), email, passwordHash, true, now);
      && store.users == old(store.users) + [user]
      && store.GetUserByEmail(email) == Some(user)
      && reply == Ok(SignupSucceeded, UserView(user.id, email, true))
      && session' == SignIn(session, user)
      && store.nextId == old(store.nextId) + 1
    ensures store.chatSessions == old(store.chatSessions) && store.messages == old(store.messages)
    ensures store.emailVerifications == old(store.emailVerifications)
  {
    var existingUser := store.GetUserByEmail(email);
    if existingUser.Some? {
      return Fail(BadRequest, EmailAlreadyRegistered), session;
    }
    var user := store.CreateUser(email, passwordHash, now);
    store.MarkUserVerified(user.id);
    VerifyNewestUser(old(store.users), user);
    session' := SignIn(session, user);
    reply := Ok(SignupSucceeded, UserView(user.id, user.email, true));
  }

  /**
    The verify-otp handler.  Its checks, in order: unknown email 404; already
    verified 400; no unused verification 400; `expiresAt` before `now` 400 (a
    code that expires exactly now is still accepted); wrong code 400.  Only when
    every check passes is the verification marked used, the user marked
    verified and the session signed in; any failure changes nothing.
  */
  method VerifyOtp(store: MemStorage, session: Option<SessionData>, email: string, otp: string, compare: Compare, now: nat)
    returns (reply: Reply, session': Option<SessionData>)
    requires store.Valid()
    modifies store
    ensures store.Valid()
    ensures reply.Fail? ==> unchanged(store) && session' == session
    ensures old(store.GetUserByEmail(email)).None? ==> reply == Fail(NotFound, UserNotFound)
    ensures old(store.GetUserByEmail(email)).Some? ==>
      var user := old(store.GetUserByEmail(email)).value;
      var verification := old(store.FindEmailVerification(user.id));
      && (user.isVerified ==> reply == Fail(BadRequest, EmailAlreadyVerified))
      && (!user.isVerified && verification.None? ==> reply == Fail(BadRequest, NoValidOtp))
      && (!user.isVerified && verification.Some? && verification.value.expiresAt < now ==>
            reply == Fail(BadRequest, OtpExpired))
      && ((!user.isVerified && verification.Some? && verification.value.expiresAt >= now
           && !compare(otp, verification.value.otpHash)) ==> reply == Fail(BadRequest, InvalidOtp))
      && ((!user.isVerified && verification.Some? && verification.value.expiresAt >= now
           && compare(otp, verification.value.otpHash)) ==>
            && reply == Ok(VerifySucceeded, UserView(user.id, user.email, true))
            && store.emailVerifications == WithVerificationUsed(old(store.emailVerifications), verification.value.id)
            && store.users == WithUserVerified(old(store.users), user.id)
            && store.chatSessions == old(store.chatSessions) && store.messages == old(store.messages)
            && store.nextId == old(store.nextId)
            && session' == SignIn(session, user))
  {
    var user := store.GetUserByEmail(email);
    if user.None? {
      return Fail(NotFound, UserNotFound), session;
    }
    if user.value.isVerified {
      return Fail(BadRequest, EmailAlreadyVerified), session;
    }
    var verification := store.FindEmailVerification(user.value.id);
    if verification.None? {
      return Fail(BadRequest, NoValidOtp), session;
    }
    if verification.value.expiresAt < now {
      return Fail(BadRequest, OtpExpired), session;
    }
    var isValidOtp := compare(otp, verification.value.otpHash);
    if !isValidOtp {
      return Fail(BadRequest, InvalidOtp), session;
    }
    store.MarkVerificationUsed(verification.value.id);
    store.MarkUserVerified(user.value.id);
    session' := SignIn(session, user.value);
    reply := Ok(VerifySucceeded, UserView(user.value.id, user.value.email, true));
  }

  /**
    The login handler: an unknown email and a wrong password give the same
    401 answer; whether the user is verified is not checked, only reported.
  */
  method Login(store: MemStorage, session: Option<SessionData>, email: string, password: string, compare: Compare)
    returns (reply: Reply, session': Option<SessionData>)
    ensures reply.Fail? <==>
      store.GetUserByEmail(email).None? || !compare(password, store.GetUserByEmail(email).value.passwordHash)
    ensures reply.Fail? ==> reply == Fail(Unauthorized, InvalidCredentials) && session' == session
    ensures reply.Ok? ==>
      var user := store.GetUserByEmail(email).value;
      && reply == Ok(LoginSucceeded, UserView(user.id, user.email, user.isVerified))
      && session' == SignIn(session, user)
  {
    var user := store.GetUserByEmail(email);
    if user.None? {
      return Fail(Unauthorized, InvalidCredentials), session;
    }
    var isValidPassword := compare(password, user.value.passwordHash);
    if !isValidPassword {
      return Fail(Unauthorized, InvalidCredentials), session;
    }
    session' := SignIn(session, user.value);
    reply := Ok(LoginSucceeded, UserView(user.value.id, user.value.email, user.value.isVerified));
  }
}
