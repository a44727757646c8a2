// Login, refresh, logout and validation (src/security/authentication_service.cpp).
module Auth {
  import opened Common
  import opened Base64
  import opened Jwt
  import PH = PasswordHasher

  datatype User = User(userId: string, username: string, passwordHash: string, role: Role)

  datatype TokenPair = TokenPair(accessToken: string, refreshToken: string, expiresInSeconds: int)

  // The code of other libraries and the configuration.
  datatype Env = Env(
    lib: Library, kdf: PH.Kdf, iterations: nat, accessExpiry: int, refreshExpiry: int)

  datatype State = State(users: map<string, User>, revoked: set<string>)

  function ClaimsOf(u: User): Claims { Claims(u.userId, u.username, u.role) }

  // static_cast<uint32_t>.
  function ToUint32(n: int): int { n % PH.UINT32 }

  // ── The operations ─────────────────────────────────────────────────────────

  function RegisterResult(env: Env, s: State, userId: string, username: string, password: string, role: Role,
                        salt: Option<seq<byte>>): (State, Result<()>) {
    match PH.Hash(env.kdf, env.iterations, password, salt)
    case Err(e) => (s, Err(e))
    case Ok(hash) =>
      if username in s.users then (s, Err(InvalidInput))
      else (s.(users := s.users[username := User(userId, username, hash, role)]), Ok(()))
  }

  // The clock is read once for each of the two tokens.
  function LoginResult(env: Env, s: State, username: string, password: string, now: int, later: int): Result<TokenPair> {
    if username !in s.users || !PH.Verify(env.kdf, password, s.users[username].passwordHash)
    then Err(AuthenticationFailed)
    else
      var claims := ClaimsOf(s.users[username]);
      Ok(TokenPair(Generate(env.lib, claims, env.accessExpiry, now),
                   Generate(env.lib, claims, env.refreshExpiry, later),
                   ToUint32(env.accessExpiry)))
  }

  function RefreshResult(env: Env, s: State, token: string, now: int, later: int): Outcome<TokenPair> {
    match Verify(env.lib, token, now)
    case Threw => Threw
    case Returned(Err(e)) => Returned(Err(e))
    case Returned(Ok(claims)) =>
      if token in s.revoked then Returned(Err(TokenExpired))
      else Returned(Ok(TokenPair(Generate(env.lib, claims, env.accessExpiry, later), "", ToUint32(env.accessExpiry))))
  }

  function Revoked(s: State, token: string): State { s.(revoked := s.revoked + {token}) }

  function ValidateResult(env: Env, s: State, token: string, now: int): Outcome<Claims> {
    if token in s.revoked then Returned(Err(TokenExpired)) else Verify(env.lib, token, now)
  }

  // ── Runs ───────────────────────────────────────────────────────────────────

  datatype Issue = Issue(claims: Claims, iat: int, exp: int)

  function IssuedToken(env: Env, i: Issue): string { Token(env.lib, i.claims, i.iat, i.exp) }

  // The service, and the history of the tokens it has issued.
  datatype Run = Run(service: State, issued: set<Issue>)

  const INITIAL := Run(State(map[], {}), {})

  datatype Event =
    | Register(userId: string, username: string, password: string, role: Role, salt: Option<seq<byte>>)
    | LogIn(username: string, password: string, now: int, later: int)
    | Refresh(token: string, now: int, later: int)
    | LogOut(token: string)
    | Validate(token: string, now: int)

  function Step(env: Env, r: Run, e: Event): Run {
    match e
    case Register(id, name, password, role, salt) =>
      r.(service := RegisterResult(env, r.service, id, name, password, role, salt).0)
    case LogIn(name, password, now, later) =>
      if LoginResult(env, r.service, name, password, now, later).Err? then r
      else
        var claims := ClaimsOf(r.service.users[name]);
        r.(issued := r.issued + {Issue(claims, now, now + env.accessExpiry), Issue(claims, later, later + env.refreshExpiry)})
    case Refresh(token, now, later) =>
      match (RefreshResult(env, r.service, token, now, later), Verify(env.lib, token, now)) {
        case (Returned(Ok(_)), Returned(Ok(claims))) =>
          r.(issued := r.issued + {Issue(claims, later, later + env.accessExpiry)})
        case _ => r
      }
    case LogOut(token) => r.(service := Revoked(r.service, token))
    case Validate(_, _) => r
  }

  function Exec(env: Env, r: Run, es: seq<Event>): Run
    decreases |es|
  {
    if es == [] then r else Exec(env, Step(env, r, es[0]), es[1..])
  }

  // The history records the very tokens that the operations return.
  lemma {:induction false} IssuedAreReturned(env: Env, r: Run, name: string, password: string, now: int, later: int)
    ensures match LoginResult(env, r.service, name, password, now, later)
      case Err(_) => Step(env, r, LogIn(name, password, now, later)) == r
      case Ok(pair) =>
        {pair.accessToken, pair.refreshToken} <=
        set i | i in Step(env, r, LogIn(name, password, now, later)).issued :: IssuedToken(env, i)
  {
    hide Token, PH.Verify;
    if LoginResult(env, r.service, name, password, now, later).Err? {
      return;
    }
    var claims := ClaimsOf(r.service.users[name]);
    var t := Step(env, r, LogIn(name, password, now, later));
    assert Issue(claims, now, now + env.accessExpiry) in t.issued;
    assert Issue(claims, later, later + env.refreshExpiry) in t.issued;
  }

  // ── Users ──────────────────────────────────────────────────────────────────

  // A registered record is never overwritten or removed.
  lemma {:induction false} UsersPersist(env: Env, r: Run, es: seq<Event>, name: string)
    requires name in r.service.users
    ensures name in Exec(env, r, es).service.users
    ensures Exec(env, r, es).service.users[name] == r.service.users[name]
    decreases |es|
  {
    if es != [] {
      UsersPersist(env, Step(env, r, es[0]), es[1..], name);
    }
  }

  predicate Registers(e: Event, c: Claims) {
    e.Register? && Claims(e.userId, e.username, e.role) == c
  }

  // Every record stems from a registration of the run.
  lemma {:induction false} UsersWereRegistered(env: Env, r: Run, es: seq<Event>, name: string)
    requires name !in r.service.users && name in Exec(env, r, es).service.users
    ensures var u := Exec(env, r, es).service.users[name];
      u.username == name && exists k :: 0 <= k < |es| && Registers(es[k], ClaimsOf(u))
    decreases |es|
  {
    if es != [] {
      var t := Step(env, r, es[0]);
      if name in t.service.users {
        UsersPersist(env, t, es[1..], name);
        assert Registers(es[0], ClaimsOf(t.service.users[name]));
      } else {
        UsersWereRegistered(env, t, es[1..], name);
        var u := Exec(env, r, es).service.users[name];
        var k :| 0 <= k < |es[1..]| && Registers(es[1..][k], ClaimsOf(u));
        assert Registers(es[k + 1], ClaimsOf(u));
      }
    }
  }

  // Through the rest of any run, a user registered under a free name logs in with exactly
  // the passwords that derive the stored key, and gets tokens for the registered claims.
  lemma {:induction false} RegisteredUserLogsIn(env: Env, r: Run, id: string, name: string, password: string, role: Role,
                             salt: seq<byte>, es: seq<Event>, attempt: string, now: int, later: int)
    requires name !in r.service.users
    requires env.iterations < PH.UINT32 && salt != [] && PH.FillsBuffer(env.kdf)
    requires env.kdf(password, salt, PH.ToInt(env.iterations), PH.HASH_BYTES).Some?
    ensures var s := Exec(env, Step(env, r, Register(id, name, password, role, Some(salt))), es).service;
      var c := Claims(id, name, role);
      LoginResult(env, s, name, attempt, now, later) ==
        if env.kdf(attempt, salt, PH.ToInt(env.iterations), PH.HASH_BYTES)
             == env.kdf(password, salt, PH.ToInt(env.iterations), PH.HASH_BYTES)
        then Ok(TokenPair(Generate(env.lib, c, env.accessExpiry, now), Generate(env.lib, c, env.refreshExpiry, later),
                          ToUint32(env.accessExpiry)))
        else Err(AuthenticationFailed)
  {
    hide Token, PH.Hash, PH.Verify;
    PH.VerifyHash(env.kdf, env.iterations, password, salt, attempt);
    UsersPersist(env, Step(env, r, Register(id, name, password, role, Some(salt))), es, name);
  }

  // A name is registered once: a hash that fails is reported before the name is looked at, a
  // taken name is InvalidInput, and neither changes anything.
  lemma {:induction false} RegistrationIsRefusedIff(env: Env, s: State, id: string, name: string, password: string, role: Role,
                                 salt: Option<seq<byte>>)
    ensures var (next, result) := RegisterResult(env, s, id, name, password, role, salt);
      var hashed := salt.Some? && env.kdf(password, salt.value, PH.ToInt(env.iterations), PH.HASH_BYTES).Some?;
      && (!hashed ==> result == Err(InternalError))
      && (hashed && name in s.users ==> result == Err(InvalidInput))
      && (hashed && name !in s.users ==> result == Ok(()) && next.users.Keys == s.users.Keys + {name})
      && (result.Err? ==> next == s)
      && next.revoked == s.revoked
  {
  }

  // ── Provenance of claims ───────────────────────────────────────────────────

  // Nobody else knows the secret: a presented token with a valid signature was issued.
  ghost predicate Presented(env: Env, r: Run, token: string) {
    SignatureOk(env.lib, token) ==> exists i :: i in r.issued && token == IssuedToken(env, i)
  }

  ghost predicate Unforged(env: Env, r: Run, es: seq<Event>)
    decreases |es|
  {
    es == []
    || ((es[0].Refresh? ==> Presented(env, r, es[0].token)) && Unforged(env, Step(env, r, es[0]), es[1..]))
  }

  ghost predicate Inv(r: Run) {
    && (forall n | n in r.service.users :: r.service.users[n].username == n)
    && (forall i | i in r.issued ::
          i.claims.username in r.service.users && ClaimsOf(r.service.users[i.claims.username]) == i.claims)
  }

  lemma {:induction false} PresentedClaims(env: Env, r: Run, token: string, now: int)
    requires Inv(r) && Faithful(env.lib) && Presented(env, r, token)
    requires Verify(env.lib, token, now).Returned? && Verify(env.lib, token, now).result.Ok?
    ensures var c := Verify(env.lib, token, now).result.value;
      c.username in r.service.users && ClaimsOf(r.service.users[c.username]) == c
  {
    var i :| i in r.issued && token == IssuedToken(env, i);
    VerifyToken(env.lib, i.claims, i.iat, i.exp, now);
  }

  lemma {:induction false} StepKeepsInv(env: Env, r: Run, e: Event)
    requires Inv(r) && Faithful(env.lib)
    requires e.Refresh? ==> Presented(env, r, e.token)
    ensures Inv(Step(env, r, e))
  {
    hide Verify, Token, SignatureOk, PH.Hash, PH.Verify;
    if e.Refresh? {
      var v := Verify(env.lib, e.token, e.now);
      if v.Returned? && v.result.Ok? {
        PresentedClaims(env, r, e.token, e.now);
      }
    }
  }

  lemma {:induction false} ExecKeepsInv(env: Env, r: Run, es: seq<Event>)
    requires Inv(r) && Faithful(env.lib) && Unforged(env, r, es)
    ensures Inv(Exec(env, r, es))
    decreases |es|
  {
    if es != [] {
      StepKeepsInv(env, r, es[0]);
      ExecKeepsInv(env, Step(env, r, es[0]), es[1..]);
    }
  }

  // Whatever ValidateToken accepts names a user registered earlier in the run, with that
  // user's id and role, through any number of refreshes.
  lemma {:induction false} ClaimsProvenance(env: Env, es: seq<Event>, token: string, now: int)
    requires Faithful(env.lib) && Unforged(env, INITIAL, es)
    requires Presented(env, Exec(env, INITIAL, es), token)
    ensures var r := Exec(env, INITIAL, es);
      match ValidateResult(env, r.service, token, now)
      case Returned(Ok(c)) =>
        && c.username in r.service.users && ClaimsOf(r.service.users[c.username]) == c
        && exists k :: 0 <= k < |es| && Registers(es[k], c)
      case Returned(Err(_)) => true
      case Threw => false
  {
    var r := Exec(env, INITIAL, es);
    ExecKeepsInv(env, INITIAL, es);
    if SignatureOk(env.lib, token) {
      var i :| i in r.issued && token == IssuedToken(env, i);
      VerifyToken(env.lib, i.claims, i.iat, i.exp, now);
      UsersWereRegistered(env, INITIAL, es, i.claims.username);
    }
  }

  // ── Revocation ─────────────────────────────────────────────────────────────

  function LoggedOut(es: seq<Event>): set<string> {
    set k | 0 <= k < |es| && es[k].LogOut? :: es[k].token
  }

  // The revocation set is exactly what was logged out; it never shrinks.
  lemma {:induction false} RevokedIsLoggedOut(env: Env, r: Run, es: seq<Event>)
    ensures Exec(env, r, es).service.revoked == r.service.revoked + LoggedOut(es)
    decreases |es|
  {
    if es != [] {
      RevokedIsLoggedOut(env, Step(env, r, es[0]), es[1..]);
      forall t ensures t in LoggedOut(es) <==> t in LoggedOut(es[1..]) || (es[0].LogOut? && t == es[0].token) {
        if t in LoggedOut(es[1..]) {
          var k :| 0 <= k < |es[1..]| && es[1..][k].LogOut? && es[1..][k].token == t;
          assert es[k + 1].token == t;
        }
        if t in LoggedOut(es) {
          var k :| 0 <= k < |es| && es[k].LogOut? && es[k].token == t;
          assert k > 0 ==> es[1..][k - 1].token == t;
        }
      }
    }
  }

  // After Logout of one issued token, at any later point of any run, an unexpired issued
  // token that is not revoked otherwise is refused iff all five of its values agree with
  // those of the token logged out; and that token is refused whatever else happens.
  lemma {:induction false} LogoutRefusesExactly(env: Env, r: Run, es: seq<Event>, a: Issue, b: Issue, now: int, later: int)
    requires Faithful(env.lib) && now <= b.exp
    ensures var t := Exec(env, Step(env, r, LogOut(IssuedToken(env, a))), es).service;
      var token := IssuedToken(env, b);
      var renewed := TokenPair(
        Generate(env.lib, b.claims, env.accessExpiry, later), "", ToUint32(env.accessExpiry));
      && (a == b ==>
            && ValidateResult(env, t, token, now) == Returned(Err(TokenExpired))
            && RefreshResult(env, t, token, now, later) == Returned(Err(TokenExpired)))
      && (token !in r.service.revoked + LoggedOut(es) ==>
            && (a != b <==> ValidateResult(env, t, token, now) == Returned(Ok(b.claims)))
            && (a != b <==> RefreshResult(env, t, token, now, later) == Returned(Ok(renewed))))
  {
    hide Token, Verify;
    RevokedIsLoggedOut(env, Step(env, r, LogOut(IssuedToken(env, a))), es);
    TokensEqualIff(env.lib, a.claims, a.iat, a.exp, b.claims, b.iat, b.exp);
    VerifyToken(env.lib, b.claims, b.iat, b.exp, now);
  }

  // The tokens just handed out by Login are accepted iff they have not expired and their
  // text was not logged out before; the text holds no nonce, so it may have been.
  lemma {:induction false} LoginTokenValidatesIff(env: Env, s: State, name: string, password: string, now: int, later: int, at: int)
    requires Faithful(env.lib)
    ensures match LoginResult(env, s, name, password, now, later)
      case Err(e) => e == AuthenticationFailed
      case Ok(pair) =>
        && name in s.users
        && (ValidateResult(env, s, pair.accessToken, at) == Returned(Ok(ClaimsOf(s.users[name]))) <==>
              at <= now + env.accessExpiry && pair.accessToken !in s.revoked)
        && (ValidateResult(env, s, pair.refreshToken, at) == Returned(Ok(ClaimsOf(s.users[name]))) <==>
              at <= later + env.refreshExpiry && pair.refreshToken !in s.revoked)
        && forall renewal :: RefreshResult(env, s, pair.refreshToken, at, renewal) ==
             if at > later + env.refreshExpiry || pair.refreshToken in s.revoked then Returned(Err(TokenExpired))
             else
               var access := Generate(env.lib, ClaimsOf(s.users[name]), env.accessExpiry, renewal);
               Returned(Ok(TokenPair(access, "", ToUint32(env.accessExpiry))))
  {
    hide Token, Verify, PH.Verify;
    if name in s.users {
      VerifyToken(env.lib, ClaimsOf(s.users[name]), now, now + env.accessExpiry, at);
      VerifyToken(env.lib, ClaimsOf(s.users[name]), later, later + env.refreshExpiry, at);
    }
  }

  // In terms of a run whose logouts were those of the issued tokens `outs`: a token just
  // handed out is accepted iff it has not expired and none of them had all five values in
  // common with it.
  lemma {:induction false} LoginAfterRunValidatesIff(env: Env, es: seq<Event>, outs: set<Issue>, name: string, password: string,
                                  now: int, later: int, at: int)
    requires Faithful(env.lib)
    requires LoggedOut(es) == set i | i in outs :: IssuedToken(env, i)
    ensures var s := Exec(env, INITIAL, es).service;
      match LoginResult(env, s, name, password, now, later)
      case Err(e) => e == AuthenticationFailed
      case Ok(pair) =>
        && name in s.users
        && (ValidateResult(env, s, pair.accessToken, at) == Returned(Ok(ClaimsOf(s.users[name]))) <==>
              at <= now + env.accessExpiry && Issue(ClaimsOf(s.users[name]), now, now + env.accessExpiry) !in outs)
        && (ValidateResult(env, s, pair.refreshToken, at) == Returned(Ok(ClaimsOf(s.users[name]))) <==>
              at <= later + env.refreshExpiry && Issue(ClaimsOf(s.users[name]), later, later + env.refreshExpiry) !in outs)
  {
    hide Token, Verify, PH.Verify, ValidateResult, LoggedOut;
    var s := Exec(env, INITIAL, es).service;
    RevokedIsLoggedOut(env, INITIAL, es);
    LoginTokenValidatesIff(env, s, name, password, now, later, at);
    if name in s.users {
      AmongTokensIff(env, outs, Issue(ClaimsOf(s.users[name]), now, now + env.accessExpiry));
      AmongTokensIff(env, outs, Issue(ClaimsOf(s.users[name]), later, later + env.refreshExpiry));
    }
  }

  lemma {:induction false} AmongTokensIff(env: Env, issues: set<Issue>, i: Issue)
    requires Faithful(env.lib)
    ensures IssuedToken(env, i) in (set j | j in issues :: IssuedToken(env, j)) <==> i in issues
  {
    hide Token;
    if j :| j in issues && IssuedToken(env, j) == IssuedToken(env, i) {
      TokensEqualIff(env.lib, i.claims, i.iat, i.exp, j.claims, j.iat, j.exp);
    }
  }

  // So is the access token renewed by RefreshToken at `later`, for the claims of the token
  // presented.
  lemma {:induction false} RenewedTokenValidatesIff(env: Env, s: State, token: string, now: int, later: int, at: int)
    requires Faithful(env.lib)
    ensures match RefreshResult(env, s, token, now, later)
      case Returned(Ok(pair)) =>
        (ValidateResult(env, s, pair.accessToken, at) == Verify(env.lib, token, now) <==>
           at <= later + env.accessExpiry && pair.accessToken !in s.revoked)
      case _ => true
  {
    hide Token, Verify;
    var v := Verify(env.lib, token, now);
    if v.Returned? && v.result.Ok? {
      VerifyToken(env.lib, v.result.value, later, later + env.accessExpiry, at);
    }
  }

  // What is not signed by the service is AuthorizationFailed, except that ValidateToken
  // looks at the revocation first; a pair says how long its access token is good for.
  lemma {:induction false} UnsignedIsRefused(env: Env, s: State, token: string, now: int, later: int)
    requires !SignatureOk(env.lib, token)
    ensures RefreshResult(env, s, token, now, later) == Returned(Err(AuthorizationFailed))
    ensures ValidateResult(env, s, token, now) ==
      Returned(Err(if token in s.revoked then TokenExpired else AuthorizationFailed))
  {
    hide SignatureOk;
  }

  lemma {:induction false} ExpiresInIs(env: Env, s: State, name: string, password: string, now: int, later: int)
    requires 0 <= env.accessExpiry < 0x1_0000_0000
    ensures match LoginResult(env, s, name, password, now, later)
      case Ok(pair) => pair.expiresInSeconds == env.accessExpiry
      case Err(e) => e == AuthenticationFailed
  {
    hide PH.Verify, Generate;
  }

  // Logging out and in again within one second yields a token that is refused at once.
  lemma {:induction false} ReloginInSameSecondIsRefused(env: Env, s: State, name: string, password: string, now: int, later: int)
    ensures match LoginResult(env, s, name, password, now, later)
      case Err(_) => true
      case Ok(pair) =>
        var t := Revoked(s, pair.accessToken);
        && LoginResult(env, t, name, password, now, later) == Ok(pair)
        && ValidateResult(env, t, pair.accessToken, now) == Returned(Err(TokenExpired))
  {
    hide Token, Verify, PH.Verify;
  }

  // Refreshing in the second in which the access token was issued and logged out returns
  // that token, which is refused.
  lemma {:induction false} RefreshInSameSecondIsRefused(env: Env, s: State, name: string, password: string, now: int)
    requires Faithful(env.lib) && env.refreshExpiry >= 0
    ensures match LoginResult(env, s, name, password, now, now)
      case Err(_) => true
      case Ok(pair) =>
        var t := Revoked(s, pair.accessToken);
        pair.refreshToken !in t.revoked ==>
          && RefreshResult(env, t, pair.refreshToken, now, now) == Returned(Ok(pair.(refreshToken := "")))
          && ValidateResult(env, t, pair.accessToken, now) == Returned(Err(TokenExpired))
  {
    hide Token, Verify, PH.Verify;
    if name in s.users {
      VerifyToken(env.lib, ClaimsOf(s.users[name]), now, now + env.refreshExpiry, now);
    }
  }

  // ── The service object ─────────────────────────────────────────────────────

  class AuthenticationService {
    const env: Env
    var users: map<string, User>
    var revokedTokens: set<string>

    function View(): State
      reads this
    {
      State(users, revokedTokens)
    }

    constructor (env: Env)
      ensures this.env == env && View() == INITIAL.service
    {
      this.env := env;
      users, revokedTokens := map[], {};
    }

    method RegisterUser(userId: string, username: string, password: string, role: Role, salt: Option<seq<byte>>)
      returns (result: Result<()>)
      modifies this
      ensures (View(), result) == RegisterResult(env, old(View()), userId, username, password, role, salt)
    {
      var hashResult := PH.Hash(env.kdf, env.iterations, password, salt);
      if hashResult.Err? {
        return Err(hashResult.error);
      }
      if username in users {
        return Err(InvalidInput);
      }
      users := users[username := User(userId, username, hashResult.value, role)];
      return Ok(());
    }

    method Login(username: string, password: string, now: int, later: int) returns (result: Result<TokenPair>)
      ensures result == LoginResult(env, View(), username, password, now, later)
    {
      if username !in users {
        return Err(AuthenticationFailed);
      }
      var user := users[username];
      if !PH.Verify(env.kdf, password, user.passwordHash) {
        return Err(AuthenticationFailed);
      }
      var claims := Claims(user.userId, user.username, user.role);
      var access := Generate(env.lib, claims, env.accessExpiry, now);
      var refresh := Generate(env.lib, claims, env.refreshExpiry, later);
      return Ok(TokenPair(access, refresh, ToUint32(env.accessExpiry)));
    }

    method RefreshToken(refreshToken: string, now: int, later: int) returns (result: Outcome<TokenPair>)
      ensures result == RefreshResult(env, View(), refreshToken, now, later)
    {
      var verdict := Verify(env.lib, refreshToken, now);
      if verdict.Threw? {
        return Threw;
      }
      if verdict.result.Err? {
        return Returned(Err(verdict.result.error));
      }
      if refreshToken in revokedTokens {
        return Returned(Err(TokenExpired));
      }
      var access := Generate(env.lib, verdict.result.value, env.accessExpiry, later);
      return Returned(Ok(TokenPair(access, "", ToUint32(env.accessExpiry))));
    }

    method Logout(accessToken: string) returns (result: Result<()>)
      modifies this`revokedTokens
      ensures View() == Revoked(old(View()), accessToken) && result == Ok(())
    {
      revokedTokens := revokedTokens + {accessToken};
      return Ok(());
    }

    method ValidateToken(accessToken: string, now: int) returns (result: Outcome<Claims>)
      ensures result == ValidateResult(env, View(), accessToken, now)
    {
      if accessToken in revokedTokens {
        return Returned(Err(TokenExpired));
      }
      return Verify(env.lib, accessToken, now);
    }
  }
}
