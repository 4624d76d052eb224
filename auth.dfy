/**
 * The in-memory user store and credential rules of the API server.
 *
 * The store is a dictionary from e-mail address to user record. Registration
 * with a password and sign-in with a Google account write to it; lookup,
 * password authentication and bearer-token verification only read it.
 * Password hashing (bcrypt) and JWT decoding are not modelled: they enter as
 * function values that the caller supplies.
 */
module Auth {
  import opened Wrappers

  /** Lifetime of a login token, in minutes. */
  const ACCESS_TOKEN_EXPIRE_MINUTES: int := 30
  /** Lifetime used when no (or a zero) lifetime is given: 15 minutes, in seconds. */
  const DEFAULT_EXPIRE_SECONDS: int := 15 * 60

  const EMAIL_PROVIDER := "email"
  const GOOGLE_PROVIDER := "google"

  /** A stored user; `hashedPassword` is None for Google accounts. */
  datatype UserInDB = UserInDB(
    email: string,
    fullName: Option<string>,
    isActive: bool,
    authProvider: string,
    hashedPassword: Option<string>)

  /** The public view of a user, as returned to clients: no password hash. */
  datatype User = User(email: string, fullName: Option<string>, isActive: bool, authProvider: string)

  /** A registration request. */
  datatype UserCreate = UserCreate(email: string, password: string, fullName: Option<string>)

  /** The identity fields taken from a verified Google ID token. */
  datatype GoogleInfo = GoogleInfo(email: string, name: string)

  /** An `HTTPException` raised to the client. */
  datatype HttpError = HttpError(status: int, detail: string)

  const EMAIL_TAKEN := HttpError(400, "Email already registered")
  const EMAIL_HAS_PASSWORD := HttpError(400, "Email already registered with email/password")
  const BAD_CREDENTIALS := HttpError(401, "Could not validate credentials")

  /** The users dictionary, keyed by e-mail address. */
  type UserDb = map<string, UserInDB>

  /** The password hash and verify pair, left uninterpreted. */
  datatype PasswordHasher = PasswordHasher(hash: string -> string, verify: (string, string) -> bool)

  /** What the model assumes of bcrypt: a hash is never empty and verifies against its password. */
  ghost predicate Sound(h: PasswordHasher)
  {
    forall p :: h.hash(p) != "" && h.verify(p, h.hash(p))
  }

  /** The result of decoding a JWT: a bad signature or expired token, or its subject claim. */
  datatype Decoded = Invalid | Claims(sub: Option<string>)

  /** A claim value: a string, or a time in whole seconds since the epoch. */
  datatype ClaimValue = Text(text: string) | Instant(seconds: int)

  /** `User(**user_dict)`: the stored record without its password hash. */
  function ToPublic(u: UserInDB): User
  {
    User(u.email, u.fullName, u.isActive, u.authProvider)
  }

  /** The invariant every reachable store keeps. */
  ghost predicate WellFormed(db: UserDb)
  {
    forall e :: e in db ==>
      && db[e].email == e
      && (db[e].authProvider == EMAIL_PROVIDER || db[e].authProvider == GOOGLE_PROVIDER)
      && (db[e].authProvider == GOOGLE_PROVIDER <==> db[e].hashedPassword.None?)
  }

  // ---------------------------------------------------------------------
  // Read-only operations
  // ---------------------------------------------------------------------

  function GetUser(db: UserDb, email: string): (r: Option<UserInDB>)
    ensures r.Some? <==> email in db
    ensures r.Some? ==> r.value == db[email]
  {
    if email in db then Some(db[email]) else None
  }

  /** A stored hash accepts a password when it is present, non-empty and verifies. */
  predicate PasswordAccepted(h: PasswordHasher, password: string, stored: Option<string>)
  {
    stored.Some? && stored.value != "" && h.verify(password, stored.value)
  }

  /** Password login: None stands for the `False` the server returns. */
  function AuthenticateUser(db: UserDb, h: PasswordHasher, email: string, password: string): (r: Option<UserInDB>)
    ensures r.Some? <==>
      email in db && db[email].authProvider != GOOGLE_PROVIDER
      && PasswordAccepted(h, password, db[email].hashedPassword)
    ensures r.Some? ==> r.value == db[email]
  {
    match GetUser(db, email)
    case None => None
    case Some(user) =>
      if user.authProvider == GOOGLE_PROVIDER then None
      else if !PasswordAccepted(h, password, user.hashedPassword) then None
      else Some(user)
  }

  /** Bearer-token check: decode the token, take its subject, look the subject up. */
  function VerifyToken(db: UserDb, decode: string -> Decoded, token: string): (r: Result<UserInDB, HttpError>)
    ensures r.Success? <==>
      decode(token).Claims? && decode(token).sub.Some? && decode(token).sub.value in db
    ensures r.Success? ==> r.value == db[decode(token).sub.value]
    ensures r.Failure? ==> r.error == BAD_CREDENTIALS
  {
    match decode(token)
    case Invalid => Failure(BAD_CREDENTIALS)
    case Claims(sub) =>
      if sub.None? then Failure(BAD_CREDENTIALS)
      else match GetUser(db, sub.value)
        case None => Failure(BAD_CREDENTIALS)
        case Some(user) => Success(user)
  }

  /**
   * The claims `create_access_token` signs: the caller's claims plus `exp`.
   * A missing lifetime, and a zero one (a zero `timedelta` is falsy), fall back
   * to 15 minutes. The caller's map is a value and is never changed.
   */
  function CreateAccessTokenClaims(data: map<string, ClaimValue>, expiresDelta: Option<int>, now: int)
    : (r: map<string, ClaimValue>)
    ensures r.Keys == data.Keys + {"exp"}
    ensures forall k :: k in data && k != "exp" ==> r[k] == data[k]
    ensures expiresDelta.Some? && expiresDelta.value != 0 ==> r["exp"] == Instant(now + expiresDelta.value)
    ensures expiresDelta.None? ==> r["exp"] == Instant(now + 900)
    ensures expiresDelta == Some(0) ==> r["exp"] == Instant(now + 900)
  {
    var expire := if expiresDelta.Some? && expiresDelta.value != 0
                  then now + expiresDelta.value
                  else now + DEFAULT_EXPIRE_SECONDS;
    data["exp" := Instant(expire)]
  }

  /** What decoding a validly signed, unexpired token carrying `claims` yields. */
  function DecodedFrom(claims: map<string, ClaimValue>): Decoded
  {
    if "sub" in claims && claims["sub"].Text? then Claims(Some(claims["sub"].text)) else Claims(None)
  }

  // ---------------------------------------------------------------------
  // Store-changing operations, as functions of the old store
  // ---------------------------------------------------------------------

  /** What a store-changing call returns, with the store it leaves. */
  datatype StoreStep = StoreStep(result: Result<User, HttpError>, db: UserDb)

  /** The record `create_user` stores. */
  function EmailUserRecord(h: PasswordHasher, data: UserCreate): UserInDB
  {
    UserInDB(data.email, data.fullName, true, EMAIL_PROVIDER, Some(h.hash(data.password)))
  }

  /** The record `create_google_user` stores for a new e-mail address. */
  function GoogleUserRecord(info: GoogleInfo): UserInDB
  {
    UserInDB(info.email, Some(info.name), true, GOOGLE_PROVIDER, None)
  }

  function CreateUserStep(db: UserDb, h: PasswordHasher, data: UserCreate): (s: StoreStep)
    ensures s.result.Failure? <==> data.email in db
    ensures s.result.Failure? ==> s.result.error == EMAIL_TAKEN && s.db == db
    ensures s.result.Success? ==>
      && s.db.Keys == db.Keys + {data.email}
      && (forall e :: e in db ==> s.db[e] == db[e])
      && s.db[data.email].email == data.email
      && s.db[data.email].fullName == data.fullName
      && s.db[data.email].authProvider == EMAIL_PROVIDER
      && s.db[data.email].isActive
      && s.db[data.email].hashedPassword == Some(h.hash(data.password))
      && s.result.value == ToPublic(s.db[data.email])
  {
    if data.email in db then StoreStep(Failure(EMAIL_TAKEN), db)
    else
      var rec := EmailUserRecord(h, data);
      StoreStep(Success(ToPublic(rec)), db[data.email := rec])
  }

  function CreateGoogleUserStep(db: UserDb, info: GoogleInfo): (s: StoreStep)
    // an existing Google account: only the name and the active flag are refreshed
    ensures info.email in db && db[info.email].authProvider == GOOGLE_PROVIDER ==>
      && s.result.Success?
      && s.db.Keys == db.Keys
      && (forall e :: e in db && e != info.email ==> s.db[e] == db[e])
      && s.db[info.email].fullName == Some(info.name)
      && s.db[info.email].isActive
      && s.db[info.email].email == db[info.email].email
      && s.db[info.email].authProvider == db[info.email].authProvider
      && s.db[info.email].hashedPassword == db[info.email].hashedPassword
      && s.result.value == ToPublic(s.db[info.email])
    // an existing password account: rejected, store untouched
    ensures info.email in db && db[info.email].authProvider != GOOGLE_PROVIDER ==>
      s.result == Failure(EMAIL_HAS_PASSWORD) && s.db == db
    // a new address: a Google account without a password hash
    ensures info.email !in db ==>
      && s.result.Success?
      && s.db.Keys == db.Keys + {info.email}
      && (forall e :: e in db ==> s.db[e] == db[e])
      && s.db[info.email].email == info.email
      && s.db[info.email].fullName == Some(info.name)
      && s.db[info.email].isActive
      && s.db[info.email].authProvider == GOOGLE_PROVIDER
      && s.db[info.email].hashedPassword.None?
      && s.result.value == ToPublic(s.db[info.email])
  {
    if info.email in db then
      var existing := db[info.email];
      if existing.authProvider == GOOGLE_PROVIDER then
        var rec := existing.(fullName := Some(info.name), isActive := true);
        StoreStep(Success(ToPublic(rec)), db[info.email := rec])
      else
        StoreStep(Failure(EMAIL_HAS_PASSWORD), db)
    else
      var rec := GoogleUserRecord(info);
      StoreStep(Success(ToPublic(rec)), db[info.email := rec])
  }

  // ---------------------------------------------------------------------
  // The store object
  // ---------------------------------------------------------------------

  /** The module-level `fake_users_db` together with the password context. */
  class UserStore {
    var users: UserDb
    const hasher: PasswordHasher

    ghost predicate Valid()
      reads this
    {
      WellFormed(users)
    }

    constructor (hasher: PasswordHasher)
      ensures Valid()
      ensures users == map[] && this.hasher == hasher
    {
      this.hasher := hasher;
      users := map[];
    }

    method CreateUser(data: UserCreate) returns (r: Result<User, HttpError>)
      requires Valid()
      modifies this
      ensures Valid()
      ensures StoreStep(r, users) == CreateUserStep(old(users), hasher, data)
      ensures data.email in old(users) ==> users == old(users)
    {
      if data.email in users {
        r := Failure(EMAIL_TAKEN);
        return;
      }
      var hashed := hasher.hash(data.password);
      var rec := UserInDB(data.email, data.fullName, true, EMAIL_PROVIDER, Some(hashed));
      users := users[data.email := rec];
      r := Success(ToPublic(rec));
    }

    method CreateGoogleUser(info: GoogleInfo) returns (r: Result<User, HttpError>)
      requires Valid()
      modifies this
      ensures Valid()
      ensures StoreStep(r, users) == CreateGoogleUserStep(old(users), info)
      ensures r.Failure? ==> users == old(users)
    {
      if info.email in users {
        var existing := users[info.email];
        if existing.authProvider == GOOGLE_PROVIDER {
          var updated := existing.(fullName := Some(info.name), isActive := true);
          users := users[info.email := updated];
          r := Success(ToPublic(updated));
        } else {
          r := Failure(EMAIL_HAS_PASSWORD);
        }
        return;
      }
      var rec := UserInDB(info.email, Some(info.name), true, GOOGLE_PROVIDER, None);
      users := users[info.email := rec];
      r := Success(ToPublic(rec));
    }
  }

  // ---------------------------------------------------------------------
  // Properties
  // ---------------------------------------------------------------------

  /** A sign-up or a Google sign-in, as the server receives them. */
  datatype Op = Register(data: UserCreate) | GoogleSignIn(info: GoogleInfo)

  function Apply(db: UserDb, h: PasswordHasher, op: Op): StoreStep
  {
    match op
    case Register(data) => CreateUserStep(db, h, data)
    case GoogleSignIn(info) => CreateGoogleUserStep(db, info)
  }

  /** The store after a sequence of calls, each applied to the store the last one left. */
  function Run(db: UserDb, h: PasswordHasher, ops: seq<Op>): UserDb
    decreases |ops|
  {
    if ops == [] then db else Run(Apply(db, h, ops[0]).db, h, ops[1..])
  }

  lemma ApplyPreservesWellFormed(db: UserDb, h: PasswordHasher, op: Op)
    requires WellFormed(db)
    ensures WellFormed(Apply(db, h, op).db)
  {
  }

  lemma {:induction false} RunPreservesWellFormed(db: UserDb, h: PasswordHasher, ops: seq<Op>)
    requires WellFormed(db)
    ensures WellFormed(Run(db, h, ops))
    decreases |ops|
  {
    if ops != [] {
      ApplyPreservesWellFormed(db, h, ops[0]);
      RunPreservesWellFormed(Apply(db, h, ops[0]).db, h, ops[1..]);
    }
  }

  /**
   * No later call removes an address, changes its provider, or touches a
   * password account at all: a Google sign-in can never take over it.
   */
  lemma {:induction false} RunKeepsAccounts(db: UserDb, h: PasswordHasher, ops: seq<Op>, e: string)
    requires e in db
    ensures e in Run(db, h, ops)
    ensures Run(db, h, ops)[e].authProvider == db[e].authProvider
    ensures Run(db, h, ops)[e].hashedPassword == db[e].hashedPassword
    ensures db[e].authProvider != GOOGLE_PROVIDER ==> Run(db, h, ops)[e] == db[e]
    decreases |ops|
  {
    if ops != [] {
      RunKeepsAccounts(Apply(db, h, ops[0]).db, h, ops[1..], e);
    }
  }

  /** A Google account never logs in with a password, whatever the password. */
  lemma GoogleAccountRejectsPasswords(db: UserDb, h: PasswordHasher, email: string, password: string)
    requires email in db && db[email].authProvider == GOOGLE_PROVIDER
    ensures AuthenticateUser(db, h, email, password).None?
  {
  }

  /** A new Google account never logs in with a password, even after any later calls. */
  lemma GoogleSignUpNeverPasswordLogin(db: UserDb, h: PasswordHasher, info: GoogleInfo, ops: seq<Op>, password: string)
    requires info.email !in db
    ensures AuthenticateUser(Run(CreateGoogleUserStep(db, info).db, h, ops), h, info.email, password).None?
  {
    RunKeepsAccounts(CreateGoogleUserStep(db, info).db, h, ops, info.email);
  }

  /**
   * Registering, then any further sign-ups or Google sign-ins, still lets the
   * user log in with the password they registered.
   */
  lemma RegisteredUserCanLogIn(db: UserDb, h: PasswordHasher, data: UserCreate, ops: seq<Op>)
    requires Sound(h) && data.email !in db
    ensures AuthenticateUser(Run(CreateUserStep(db, h, data).db, h, ops), h, data.email, data.password)
         == Some(EmailUserRecord(h, data))
  {
    var after := CreateUserStep(db, h, data).db;
    RunKeepsAccounts(after, h, ops, data.email);
  }

  /**
   * The login endpoint's token (subject = the user's e-mail, 30 minutes) is
   * accepted by the token check for as long as it decodes, and names the same user.
   */
  lemma LoginTokenVerifies(db: UserDb, h: PasswordHasher, email: string, password: string,
                           now: int, decode: string -> Decoded, token: string)
    requires WellFormed(db)
    requires AuthenticateUser(db, h, email, password).Some?
    requires decode(token) ==
      DecodedFrom(CreateAccessTokenClaims(map["sub" := Text(AuthenticateUser(db, h, email, password).value.email)],
                                          Some(ACCESS_TOKEN_EXPIRE_MINUTES * 60), now))
    ensures VerifyToken(db, decode, token) == Success(AuthenticateUser(db, h, email, password).value)
  {
  }

  /** Every failure of the token check is the same 401 response. */
  lemma RejectedTokenIs401(db: UserDb, decode: string -> Decoded, token: string)
    requires decode(token).Invalid? || decode(token).sub.None? || decode(token).sub.value !in db
    ensures VerifyToken(db, decode, token) == Failure(BAD_CREDENTIALS)
  {
  }
}
