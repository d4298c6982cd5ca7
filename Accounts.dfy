/**
 * The account server actions (src/actions/user.action.ts): sign-up, sign-in
 * and reading the signed-in user. Password hashing, password comparison,
 * token signing and token verification are collaborators passed in: the
 * hash sign-up stores, a `compare` function, a `sign` function and the
 * outcome of verifying the token cookie.
 */
module Accounts {
  import opened Common
  import opened Store
  import opened AuthValidation

  /** Column values the user table fills in by itself for a new row. */
  datatype UserDefaults = UserDefaults(credit: int, role: string)

  datatype RegisterResponse = Registered(user: User, message: string) | RegisterFailed(error: string)

  /** The row sign-up inserts; the password column holds the hash. */
  function NewUser(input: RegisterInput, hashed: string, id: string, defaults: UserDefaults): (u: User)
    ensures u.id == id && u.email == input.email && u.name == input.name && u.lastName == input.lastName
    ensures u.phone == input.phone && u.password == hashed
  {
    User(id, input.email, input.name, input.lastName, input.phone, hashed, defaults.credit, defaults.role)
  }

  /** The check that follows the schema in register_user. */
  predicate SomeFieldEmpty(input: RegisterInput)
  {
    input.email == "" || input.password == "" || input.name == "" || input.lastName == "" || input.phone == ""
  }

  /**
   * register_user: the user table afterwards and the answer. `hashed` is
   * what `hash(password, 10)` returns and `createFails` the database
   * refusing the row.
   */
  function Register(users: seq<User>, input: RegisterInput, isEmail: string -> bool, hashed: string,
                    id: string, defaults: UserDefaults, createFails: bool): (seq<User>, RegisterResponse)
  {
    var issues := RegisterIssues(input, isEmail);
    if issues != [] then (users, RegisterFailed(Join(issues)))
    else if SomeFieldEmpty(input) then (users, RegisterFailed("All fields are required"))
    else if HasEmail(users, input.email) then (users, RegisterFailed("User with this email already exists"))
    else if createFails then (users, RegisterFailed("An error occurred while registering the user"))
    else
      var u := NewUser(input, hashed, id, defaults);
      (users + [u], Registered(u, "User registered successfully"))
  }

  method RegisterUser(db: Database, input: RegisterInput, isEmail: string -> bool, hashed: string,
                      id: string, defaults: UserDefaults, createFails: bool) returns (r: RegisterResponse)
    modifies db
    ensures (db.users, r) == Register(old(db.users), input, isEmail, hashed, id, defaults, createFails)
    ensures db.properties == old(db.properties)
  {
    var issues := RegisterIssues(input, isEmail);
    if issues != [] {
      r := RegisterFailed(Join(issues));
    } else if SomeFieldEmpty(input) {
      r := RegisterFailed("All fields are required");
    } else {
      var existing := UserByEmail(db.users, input.email);
      if existing.Some? {
        r := RegisterFailed("User with this email already exists");
      } else if createFails {
        r := RegisterFailed("An error occurred while registering the user");
      } else {
        var u := User(id, input.email, input.name, input.lastName, input.phone, hashed, defaults.credit, defaults.role);
        db.users := db.users + [u];
        r := Registered(u, "User registered successfully");
      }
    }
  }

  /** Every refused sign-up leaves the table as it was; a refusal by the schema reports all its messages. */
  lemma RefusedRegistrationChangesNothing(users: seq<User>, input: RegisterInput, isEmail: string -> bool,
                                          hashed: string, id: string, defaults: UserDefaults, createFails: bool)
    ensures var (after, r) := Register(users, input, isEmail, hashed, id, defaults, createFails);
      && (r.RegisterFailed? ==> after == users)
      && (RegisterIssues(input, isEmail) != [] ==> r == RegisterFailed(Join(RegisterIssues(input, isEmail))))
      && (ValidRegistration(input, isEmail) && input.email != "" && HasEmail(users, input.email) ==>
            r == RegisterFailed("User with this email already exists"))
  {
    RegisterIssuesEmpty(input, isEmail);
  }

  /**
   * Any input with an empty field has already failed the schema, so the
   * "All fields are required" branch is never taken.
   */
  lemma AllFieldsCheckUnreachable(input: RegisterInput, isEmail: string -> bool)
    requires !isEmail("")
    ensures SomeFieldEmpty(input) ==> RegisterIssues(input, isEmail) != []
  {
    RegisterIssuesEmpty(input, isEmail);
  }

  /** A successful sign-up appends exactly one row, and keeps ids and e-mails unique when the id is new. */
  lemma RegistrationAddsOneUser(users: seq<User>, input: RegisterInput, isEmail: string -> bool,
                                hashed: string, id: string, defaults: UserDefaults, createFails: bool)
    requires UniqueUsers(users) && !HasId(users, id)
    ensures var (after, r) := Register(users, input, isEmail, hashed, id, defaults, createFails);
      && (r.Registered? ==> after == users + [NewUser(input, hashed, id, defaults)] && r.user == NewUser(input, hashed, id, defaults))
      && UniqueUsers(after)
  {
    var (after, r) := Register(users, input, isEmail, hashed, id, defaults, createFails);
    if r.Registered? {
      var u := NewUser(input, hashed, id, defaults);
      assert !HasEmail(users, input.email);
      forall i, j | 0 <= i < j < |after| ensures after[i].id != after[j].id && after[i].email != after[j].email {
        if j == |users| {
          assert after[j] == u && after[i] == users[i];
        }
      }
    }
  }

  // ---------------------------------------------------------------------
  // Sign-in
  // ---------------------------------------------------------------------

  /** The payload handed to signToken. */
  datatype TokenClaims = TokenClaims(email: string, id: string, fullName: string, role: string)

  datatype Cookie = Cookie(name: string, value: string, httpOnly: bool, secure: bool,
                           sameSite: string, path: string, maxAge: int)

  datatype LoginResponse = LoggedIn(user: User, message: string) | LoginFailed(error: string)

  /** Seven days, in seconds. */
  const TokenMaxAge := 7 * 24 * 60 * 60

  function ClaimsOf(u: User): TokenClaims
  {
    TokenClaims(u.email, u.id, u.name + " " + u.lastName, u.role)
  }

  /**
   * login_user: the answer and the cookie it sets, if any. `compare` is
   * bcrypt's comparison, `sign` the token signer and `production` whether
   * NODE_ENV is "production".
   */
  function Login(users: seq<User>, input: LoginInput, isEmail: string -> bool,
                 compare: (string, string) -> bool, sign: TokenClaims -> string,
                 production: bool): (LoginResponse, Option<Cookie>)
  {
    var issues := LoginIssues(input, isEmail);
    if issues != [] then (LoginFailed(Join(issues)), None)
    else if input.email == "" || input.password == "" then (LoginFailed("Email and password are required"), None)
    else
      var found := UserByEmail(users, input.email);
      if found.None? then (LoginFailed("User not found"), None)
      else if !compare(input.password, found.value.password) then (LoginFailed("Invalid password"), None)
      else
        (LoggedIn(found.value, "User logged in successfully"),
         Some(Cookie("token", sign(ClaimsOf(found.value)), true, production, "strict", "/", TokenMaxAge)))
  }

  /** A cookie is set exactly when sign-in succeeds, and then it is the week-long, HTTP-only, strict token cookie. */
  lemma LoginCookieExactlyOnSuccess(users: seq<User>, input: LoginInput, isEmail: string -> bool,
                                    compare: (string, string) -> bool, sign: TokenClaims -> string, production: bool)
    ensures var (r, cookie) := Login(users, input, isEmail, compare, sign, production);
      && (cookie.Some? <==> r.LoggedIn?)
      && (r.LoggedIn? ==> cookie == Some(Cookie("token", sign(ClaimsOf(r.user)), true, production, "strict", "/", 604800)))
      && (r.LoggedIn? ==> r.user.email == input.email && compare(input.password, r.user.password))
  {
    if LoginIssues(input, isEmail) == [] && input.email != "" && input.password != "" {
      var found := UserByEmail(users, input.email);
    }
  }

  /** An unknown e-mail and a wrong password are told apart. */
  lemma LoginFailureMessages(users: seq<User>, input: LoginInput, isEmail: string -> bool,
                             compare: (string, string) -> bool, sign: TokenClaims -> string, production: bool)
    requires ValidLogin(input, isEmail) && input.email != ""
    ensures !HasEmail(users, input.email) ==>
      Login(users, input, isEmail, compare, sign, production).0 == LoginFailed("User not found")
    ensures HasEmail(users, input.email) && !compare(input.password, UserByEmail(users, input.email).value.password) ==>
      Login(users, input, isEmail, compare, sign, production).0 == LoginFailed("Invalid password")
  {
    LoginIssuesEmpty(input, isEmail);
  }

  /**
   * Signing up and then signing in with the same e-mail and password
   * succeeds, provided the stored hash matches the password under `compare`.
   */
  lemma RegisterThenLogin(users: seq<User>, input: RegisterInput, isEmail: string -> bool, hashed: string,
                          id: string, defaults: UserDefaults, compare: (string, string) -> bool,
                          sign: TokenClaims -> string, production: bool)
    requires compare(input.password, hashed)
    requires Register(users, input, isEmail, hashed, id, defaults, false).1.Registered?
    ensures var after := Register(users, input, isEmail, hashed, id, defaults, false).0;
      Login(after, LoginInput(input.email, input.password), isEmail, compare, sign, production).0
        == LoggedIn(NewUser(input, hashed, id, defaults), "User logged in successfully")
  {
    var u := NewUser(input, hashed, id, defaults);
    var after := users + [u];
    RegisterIssuesEmpty(input, isEmail);
    RegisteredCanLogIn(input, isEmail);
    assert !HasEmail(users, input.email);
    AppendedLookup(users, u);
  }

  /** Looking up the e-mail of a row appended after rows that lack it finds that row. */
  lemma {:induction false} AppendedLookup(users: seq<User>, u: User)
    requires !HasEmail(users, u.email)
    ensures UserByEmail(users + [u], u.email) == Some(u)
  {
    if users == [] {
      assert users + [u] == [u];
    } else {
      assert (users + [u])[0] == users[0];
      assert (users + [u])[1..] == users[1..] + [u];
      forall i | 0 <= i < |users[1..]| ensures users[1..][i].email != u.email {
        assert users[1..][i] == users[i + 1];
      }
      AppendedLookup(users[1..], u);
    }
  }

  // ---------------------------------------------------------------------
  // The signed-in user
  // ---------------------------------------------------------------------

  /** The claims get_current_user reads from a verified token. */
  datatype SessionClaims = SessionClaims(id: Option<string>)

  /** verifyToken either throws or returns the claims, which may be null. */
  datatype TokenCheck = CheckThrew | Checked(claims: Option<SessionClaims>)

  /** The selected columns of the user row; the password is not among them. */
  datatype Profile = Profile(id: string, email: string, credit: int, lastName: string, name: string,
                             phone: string, role: string)

  /** What get_current_user returns: null, or an object that holds the selected columns or, spread from null, nothing. */
  datatype SessionUser = NullUser | UserObject(profile: Option<Profile>)

  function ProfileOf(u: User): Profile
  {
    Profile(u.id, u.email, u.credit, u.lastName, u.name, u.phone, u.role)
  }

  /** The id a present token carries, when it verifies and names one. */
  function SessionId(token: Option<string>, check: TokenCheck): Option<string>
  {
    if token.None? || token.value == "" then None
    else if check.CheckThrew? || check.claims.None? then None
    else if check.claims.value.id.None? || check.claims.value.id.value == "" then None
    else check.claims.value.id
  }

  /** get_current_user as written: the row found is spread into a fresh object, `{}` when there is none. */
  function CurrentUserAsWritten(token: Option<string>, check: TokenCheck, users: seq<User>): (r: SessionUser)
    ensures SessionId(token, check).None? <==> r == NullUser
  {
    var id := SessionId(token, check);
    if id.None? then NullUser
    else
      var found := UserById(users, id.value);
      UserObject(if found.Some? then Some(ProfileOf(found.value)) else None)
  }

  /** An id that names no user yields an empty object, not null, so callers testing the result for null see a user. */
  lemma UnknownIdYieldsEmptyObject(users: seq<User>, token: string, id: string)
    requires token != "" && id != "" && !HasId(users, id)
    ensures CurrentUserAsWritten(Some(token), Checked(Some(SessionClaims(Some(id)))), users) == UserObject(None)
  {
  }

  /** get_current_user as intended: null whenever no user row backs the token. */
  function CurrentUser(token: Option<string>, check: TokenCheck, users: seq<User>): (r: SessionUser)
    ensures r == NullUser <==> SessionId(token, check).None? || !HasId(users, SessionId(token, check).value)
    ensures r != NullUser ==> r.profile.Some?
  {
    var id := SessionId(token, check);
    if id.None? then NullUser
    else
      var found := UserById(users, id.value);
      if found.Some? then UserObject(Some(ProfileOf(found.value))) else NullUser
  }

  /** The two agree whenever the token names a user, and then the profile is that user's. */
  lemma CurrentUserAgreesOnKnownIds(token: Option<string>, check: TokenCheck, users: seq<User>, i: int)
    requires UniqueUsers(users) && 0 <= i < |users|
    requires SessionId(token, check) == Some(users[i].id)
    ensures CurrentUser(token, check, users) == CurrentUserAsWritten(token, check, users)
    ensures CurrentUser(token, check, users) == UserObject(Some(ProfileOf(users[i])))
  {
    UserByIdUnique(users, i);
  }

  /** A missing or empty token, a failed verification, or claims without an id all give null. */
  lemma NoSessionGivesNull(token: Option<string>, check: TokenCheck, users: seq<User>)
    requires token.None? || token == Some("") || check.CheckThrew? || check == Checked(None)
             || (check.Checked? && check.claims.Some? && (check.claims.value.id.None? || check.claims.value.id == Some("")))
    ensures CurrentUser(token, check, users) == NullUser
    ensures CurrentUserAsWritten(token, check, users) == NullUser
  {
  }
}
