/** The account registry (UserService): registration with a unique username
    and a closed set of roles, login by username and password, and lookup
    by username. Accounts are kept by username, the key that the account
    repository looks them up by; the repository's generated id is a field
    of the account and is supplied by the caller, fresh. */
module Users {
  import opened Outcomes
  import Jwt

  const ROLE_USER := "ROLE_USER"
  const ROLE_DRIVER := "ROLE_DRIVER"

  const UserNotFound := "User not found"
  const UsernameTaken := "Username already exists"
  const RoleRejected := "Role must be ROLE_USER or ROLE_DRIVER"
  const InvalidPassword := "Invalid password"

  /** The two roles an account may be registered with. */
  predicate IsRole(role: string) {
    role == ROLE_USER || role == ROLE_DRIVER
  }

  datatype User = User(id: string, username: string, password: string, role: string)

  datatype RegisterRequest = RegisterRequest(username: string, password: string, role: string)
  datatype LoginRequest = LoginRequest(username: string, password: string)
  datatype AuthResponse = AuthResponse(token: string, username: string, role: string)

  /** The password encoder, abstract: only `Sound` is ever assumed of it. */
  datatype PasswordEncoder = PasswordEncoder(encode: string -> string, matches: (string, string) -> bool)

  /** An encoded password matches the raw password it was encoded from. */
  ghost predicate Sound(encoder: PasswordEncoder) {
    forall raw: string :: encoder.matches(raw, encoder.encode(raw))
  }

  /** The account store, by username. */
  type Accounts = map<string, User>

  ghost predicate IdTaken(accounts: Accounts, id: string) {
    exists name :: name in accounts && accounts[name].id == id
  }

  /** Every account sits under its own username, has one of the two roles,
      and no two accounts share an id. */
  ghost predicate WellFormed(accounts: Accounts) {
    && (forall name :: name in accounts ==> accounts[name].username == name && IsRole(accounts[name].role))
    && (forall a, b :: a in accounts && b in accounts && accounts[a].id == accounts[b].id ==> a == b)
  }

  /** findByUsername: the account with that username, or NotFound. */
  function FindUser(accounts: Accounts, username: string): (found: Result<User>)
    ensures found.Ok? <==> username in accounts
    ensures found.Ok? ==> found.value == accounts[username]
    ensures found.Ok? && WellFormed(accounts) ==> found.value.username == username && IsRole(found.value.role)
    ensures found.Err? ==> found.error == NotFound(UserNotFound)
  {
    if username in accounts then Ok(accounts[username]) else Err(NotFound(UserNotFound))
  }

  /** What register answers, and the account store afterwards. */
  datatype Registration = Registration(response: Result<AuthResponse>, accounts: Accounts)

  /** register, with the id the repository assigns to the new account and
      the clock reading at which the token is issued. */
  function RegisterOutcome(encoder: PasswordEncoder, jwt: Jwt.JwtUtil, accounts: Accounts,
                           request: RegisterRequest, accountId: string, now: int): (after: Registration)
    requires !IdTaken(accounts, accountId)
    ensures request.username in accounts ==>
      after == Registration(Err(BadRequest(UsernameTaken)), accounts)
    ensures request.username !in accounts && !IsRole(request.role) ==>
      after == Registration(Err(BadRequest(RoleRejected)), accounts)
    ensures after.response.Ok? <==> request.username !in accounts && IsRole(request.role)
    ensures after.response.Ok? ==>
      && after.accounts.Keys == accounts.Keys + {request.username}
      && (forall name :: name in accounts ==> after.accounts[name] == accounts[name])
      && after.accounts[request.username].id == accountId
      && after.accounts[request.username].username == request.username
      && after.accounts[request.username].password == encoder.encode(request.password)
      && after.accounts[request.username].role == request.role
      && after.response.value.username == request.username
      && after.response.value.role == request.role
      && after.response.value.token == Jwt.GenerateToken(jwt, request.username, request.role, now)
    ensures WellFormed(accounts) ==> WellFormed(after.accounts)
  {
    if request.username in accounts then
      Registration(Err(BadRequest(UsernameTaken)), accounts)
    else if request.role != ROLE_USER && request.role != ROLE_DRIVER then
      Registration(Err(BadRequest(RoleRejected)), accounts)
    else
      var user := User(accountId, request.username, encoder.encode(request.password), request.role);
      var saved := accounts[user.username := user];
      Registration(Ok(AuthResponse(Jwt.GenerateToken(jwt, user.username, user.role, now), user.username, user.role)), saved)
  }

  /** login: look the account up, then match the password against the
      stored encoding. */
  function LoginOutcome(encoder: PasswordEncoder, jwt: Jwt.JwtUtil, accounts: Accounts,
                        request: LoginRequest, now: int): (response: Result<AuthResponse>)
    ensures request.username !in accounts ==> response == Err(NotFound(UserNotFound))
    ensures request.username in accounts && !encoder.matches(request.password, accounts[request.username].password) ==>
      response == Err(BadRequest(InvalidPassword))
    ensures response.Ok? <==>
      request.username in accounts && encoder.matches(request.password, accounts[request.username].password)
    ensures response.Ok? ==>
      && request.username in accounts
      && encoder.matches(request.password, accounts[request.username].password)
      && response.value.username == accounts[request.username].username
      && response.value.role == accounts[request.username].role
      && response.value.token == Jwt.GenerateToken(jwt, response.value.username, response.value.role, now)
  {
    match FindUser(accounts, request.username)
    case Err(e) => Err(e)
    case Ok(user) =>
      if !encoder.matches(request.password, user.password) then Err(BadRequest(InvalidPassword))
      else Ok(AuthResponse(Jwt.GenerateToken(jwt, user.username, user.role, now), user.username, user.role))
  }

  /** Registering and then logging in with the same credentials succeeds,
      whenever it happens, and hands back the registered role and a token
      whose subject and role claims are the registered ones. */
  lemma RegisterThenLogin(encoder: PasswordEncoder, jwt: Jwt.JwtUtil, accounts: Accounts,
                          request: RegisterRequest, accountId: string, registeredAt: int, loginAt: int)
    requires Sound(encoder) && Jwt.SerializationRoundTrips(jwt)
    requires !IdTaken(accounts, accountId)
    requires RegisterOutcome(encoder, jwt, accounts, request, accountId, registeredAt).response.Ok?
    ensures var after := RegisterOutcome(encoder, jwt, accounts, request, accountId, registeredAt).accounts;
      var login := LoginOutcome(encoder, jwt, after, LoginRequest(request.username, request.password), loginAt);
      && login == Ok(AuthResponse(Jwt.GenerateToken(jwt, request.username, request.role, loginAt), request.username, request.role))
      && Jwt.ExtractUsername(jwt, login.value.token) == Jwt.Extracted(request.username)
      && Jwt.ExtractRole(jwt, login.value.token) == Jwt.Extracted(request.role)
  {
  }

  /** A username can be registered only once. */
  lemma RegisterTwiceFails(encoder: PasswordEncoder, jwt: Jwt.JwtUtil, accounts: Accounts,
                           first: RegisterRequest, firstId: string, second: RegisterRequest, secondId: string, t0: int, t1: int)
    requires !IdTaken(accounts, firstId)
    requires RegisterOutcome(encoder, jwt, accounts, first, firstId, t0).response.Ok?
    requires second.username == first.username
    requires !IdTaken(RegisterOutcome(encoder, jwt, accounts, first, firstId, t0).accounts, secondId)
    ensures var after := RegisterOutcome(encoder, jwt, accounts, first, firstId, t0).accounts;
      RegisterOutcome(encoder, jwt, after, second, secondId, t1) == Registration(Err(BadRequest(UsernameTaken)), after)
  {
  }

  /** The service object: the account repository as a map that register
      replaces, with the encoder and the token utility it was built with. */
  class UserService {
    var accounts: Accounts
    const encoder: PasswordEncoder
    const jwtUtil: Jwt.JwtUtil

    ghost predicate Valid()
      reads this
    {
      WellFormed(accounts)
    }

    constructor (encoder: PasswordEncoder, jwtUtil: Jwt.JwtUtil)
      ensures Valid() && accounts == map[]
      ensures this.encoder == encoder && this.jwtUtil == jwtUtil
    {
      this.accounts := map[];
      this.encoder := encoder;
      this.jwtUtil := jwtUtil;
    }

    method Register(request: RegisterRequest, accountId: string, now: int) returns (response: Result<AuthResponse>)
      requires Valid() && !IdTaken(accounts, accountId)
      modifies this
      ensures Valid()
      ensures Registration(response, accounts)
           == RegisterOutcome(encoder, jwtUtil, old(accounts), request, accountId, now)
    {
      if request.username in accounts {
        return Err(BadRequest(UsernameTaken));
      }
      if request.role != ROLE_USER && request.role != ROLE_DRIVER {
        return Err(BadRequest(RoleRejected));
      }
      var user := User(accountId, request.username, encoder.encode(request.password), request.role);
      accounts := accounts[user.username := user];
      var token := Jwt.GenerateToken(jwtUtil, user.username, user.role, now);
      response := Ok(AuthResponse(token, user.username, user.role));
    }

    method Login(request: LoginRequest, now: int) returns (response: Result<AuthResponse>)
      ensures response == LoginOutcome(encoder, jwtUtil, accounts, request, now)
    {
      var found := FindByUsername(request.username);
      if found.Err? {
        return Err(found.error);
      }
      var user := found.value;
      if !encoder.matches(request.password, user.password) {
        return Err(BadRequest(InvalidPassword));
      }
      var token := Jwt.GenerateToken(jwtUtil, user.username, user.role, now);
      response := Ok(AuthResponse(token, user.username, user.role));
    }

    method FindByUsername(username: string) returns (found: Result<User>)
      ensures found == FindUser(accounts, username)
    {
      if username in accounts {
        found := Ok(accounts[username]);
      } else {
        found := Err(NotFound(UserNotFound));
      }
    }
  }
}
