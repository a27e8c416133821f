/** The authentication orchestrator: register, login, refresh-token rotation, logout and
    access-token payload validation, each a short sequence of calls on the users service, the
    token issuer and bcrypt.

    As written, `refresh` and `logout` look a session up by a digest made with a freshly drawn
    salt. A salted digest made now never equals the digest stored when the session was created,
    so while every stored digest uses an earlier salt (`SaltsFresh`), `refresh` always fails
    with Unauthorized and `logout` revokes nothing. Both are modelled as written. */
module Auth {
  import opened Outcomes
  import opened TokenIssuer
  import opened Users

  const InvalidCredentials := "Invalid credentials"
  const InvalidRefreshToken := "Invalid refresh token"
  const UserNotFound := "User not found"

  /** The public part of a user returned with the tokens. */
  datatype Profile = Profile(id: UserId, email: string, role: string, createdAt: int)

  datatype AuthResponse = AuthResponse(user: Profile, accessToken: Jwt, refreshToken: Jwt)

  function ProfileOf(u: User): Profile {
    Profile(u.id, u.email, u.role, u.createdAt)
  }

  /** The claims signed for a user. */
  function PayloadOf(u: User): Payload {
    Payload(u.id, u.email, u.role)
  }

  /** `after` is `before` plus one active session with the given fields. */
  ghost predicate AppendedSession(before: seq<Session>, after: seq<Session>, userId: UserId, hash: Digest<Jwt>,
                                  userAgent: Option<string>, ip: Option<string>, now: int)
  {
    && |after| == |before| + 1
    && after[..|before|] == before
    && after[|before|].userId == userId
    && after[|before|].refreshTokenHash == hash
    && after[|before|].userAgent == userAgent && after[|before|].ip == ip
    && after[|before|].createdAt == now
    && after[|before|].Active()
  }

  /** Login's credential check on the stored users. */
  predicate CredentialsMatch(users: seq<User>, email: string, password: string) {
    var known := UserByEmail(users, email);
    known.Some? && ValidatePassword(known.value, password)
  }

  lemma AppendEvolves(before: seq<Session>, after: seq<Session>, userId: UserId, hash: Digest<Jwt>,
                      userAgent: Option<string>, ip: Option<string>, now: int)
    requires AppendedSession(before, after, userId, hash, userAgent, ip, now)
    ensures SessionsEvolve(before, after)
  {
    forall i | 0 <= i < |before| ensures SessionStep(before[i], after[i]) {
      assert after[i] == after[..|before|][i];
    }
  }

  /** Refresh-token rotation: `s` was an active session matched by `lookup`, its owner
      exists, `tokens` carry the owner's claims, `s` is revoked and one new active session
      of the same user holds `newHash`. */
  ghost predicate Rotation(before: seq<Session>, after: seq<Session>, users: seq<User>, s: Session,
                           lookup: Digest<Jwt>, newHash: Digest<Jwt>, tokens: TokenPair, config: JwtConfig, now: int)
  {
    && s.Active() && s.refreshTokenHash == lookup
    && IdInUse(users, s.userId)
    && tokens == GenerateTokens(config, PayloadOf(UserById(users, s.userId).value), now)
    && AppendedSession(RevokeById(before, s.id, now), after, s.userId, newHash, None, None, now)
  }

  class AuthService {
    const users: UsersService
    const config: JwtConfig

    ghost predicate Valid()
      reads this, users
    {
      users.Valid()
    }

    constructor (users: UsersService, config: JwtConfig)
      ensures this.users == users && this.config == config
    {
      this.users := users;
      this.config := config;
    }

    /** `register`: Conflict from `createUser` before anything is written; otherwise one new
        user and one active session whose digest is of the returned refresh token. */
    method Register(email: string, password: string, userAgent: Option<string>, ip: Option<string>, now: int)
      returns (r: Result<AuthResponse, AuthError>)
      requires Valid()
      modifies users, users.salts
      ensures Valid()
      ensures SessionsEvolve(old(users.sessions), users.sessions)
      ensures old(EmailTaken(users.users, email)) ==>
        && r == Failure(Conflict(EmailTakenMessage))
        && users.users == old(users.users) && users.sessions == old(users.sessions)
      ensures !old(EmailTaken(users.users, email)) ==>
        && r.Success?
        && |users.users| == |old(users.users)| + 1
        && users.users[..|old(users.users)|] == old(users.users)
        && var u := users.users[|old(users.users)|];
        && u.email == email && u.role == "user" && ValidatePassword(u, password)
        && r.value.user == ProfileOf(u)
        && TokenPair(r.value.accessToken, r.value.refreshToken) == GenerateTokens(config, PayloadOf(u), now)
        && AppendedSession(old(users.sessions), users.sessions, u.id,
                           Bcrypt(SaltRounds, old(users.salts.drawn) + 1, r.value.refreshToken), userAgent, ip, now)
      ensures old(users.SaltsFresh()) ==> users.SaltsFresh()
    {
      var created := users.CreateUser(email, password, now);
      if created.Failure? {
        return Failure(created.error);
      }
      var user := created.value;
      var tokens := GenerateTokens(config, PayloadOf(user), now);
      var refreshTokenHash := users.salts.Hash(tokens.refreshToken, SaltRounds);
      var _ := users.CreateSession(user.id, refreshTokenHash, userAgent, ip, now);
      AppendEvolves(old(users.sessions), users.sessions, user.id, refreshTokenHash, userAgent, ip, now);
      r := Success(AuthResponse(ProfileOf(user), tokens.accessToken, tokens.refreshToken));
    }

    /** `login`: the same Unauthorized for an unknown e-mail and for a wrong password, with
        nothing written; otherwise one active session for that user and no new user. */
    method Login(email: string, password: string, userAgent: Option<string>, ip: Option<string>, now: int)
      returns (r: Result<AuthResponse, AuthError>)
      requires Valid()
      modifies users, users.salts
      ensures Valid() && users.users == old(users.users)
      ensures SessionsEvolve(old(users.sessions), users.sessions)
      ensures !CredentialsMatch(users.users, email, password) ==>
        && r == Failure(Unauthorized(InvalidCredentials))
        && users.sessions == old(users.sessions) && users.salts.drawn == old(users.salts.drawn)
      ensures CredentialsMatch(users.users, email, password) ==>
        && r.Success?
        && var u := UserByEmail(users.users, email).value;
        && r.value.user == ProfileOf(u)
        && TokenPair(r.value.accessToken, r.value.refreshToken) == GenerateTokens(config, PayloadOf(u), now)
        && AppendedSession(old(users.sessions), users.sessions, u.id,
                           Bcrypt(SaltRounds, old(users.salts.drawn), r.value.refreshToken), userAgent, ip, now)
      ensures old(users.SaltsFresh()) ==> users.SaltsFresh()
    {
      var found := users.FindUserByEmail(email);
      if found.None? {
        return Failure(Unauthorized(InvalidCredentials));
      }
      var user := found.value;
      assert user == UserByEmail(users.users, email).value;
      if !ValidatePassword(user, password) {
        return Failure(Unauthorized(InvalidCredentials));
      }
      var tokens := GenerateTokens(config, PayloadOf(user), now);
      var refreshTokenHash := users.salts.Hash(tokens.refreshToken, SaltRounds);
      var _ := users.CreateSession(user.id, refreshTokenHash, userAgent, ip, now);
      AppendEvolves(old(users.sessions), users.sessions, user.id, refreshTokenHash, userAgent, ip, now);
      r := Success(AuthResponse(ProfileOf(user), tokens.accessToken, tokens.refreshToken));
    }

    /** `refresh`: a new token pair, or Unauthorized("Invalid refresh token") for every inner
        failure with the sessions untouched. A matched session is revoked and exactly one new
        active session is created for the same user, carrying that user's claims. While the
        salts are fresh no session can match, so refresh always fails. */
    method Refresh(refreshToken: Jwt, now: int) returns (r: Result<TokenPair, AuthError>)
      requires Valid()
      modifies users, users.salts
      ensures Valid() && users.users == old(users.users)
      ensures SessionsEvolve(old(users.sessions), users.sessions)
      ensures r.Failure? ==> r.error == Unauthorized(InvalidRefreshToken) && users.sessions == old(users.sessions)
      ensures r.Success? ==>
        && Verify(refreshToken, config.refreshSecret, now).Some?
        && (exists s :: s in old(users.sessions)
              && Rotation(old(users.sessions), users.sessions, users.users, s,
                          Bcrypt(SaltRounds, old(users.salts.drawn), refreshToken),
                          Bcrypt(SaltRounds, old(users.salts.drawn) + 1, r.value.refreshToken),
                          r.value, config, now))
      ensures old(users.SaltsFresh()) ==>
        r == Failure(Unauthorized(InvalidRefreshToken)) && users.sessions == old(users.sessions)
      ensures old(users.SaltsFresh()) ==> users.SaltsFresh()
    {
      ghost var sessions0, drawn0 := users.sessions, users.salts.drawn;
      var payload := Verify(refreshToken, config.refreshSecret, now);
      if payload.None? {
        return Failure(Unauthorized(InvalidRefreshToken));
      }
      var lookupHash := users.salts.Hash(refreshToken, SaltRounds);
      if old(users.SaltsFresh()) {
        FreshDigestMatchesNothing(sessions0, drawn0, refreshToken);
      }
      var session := users.FindSessionByRefreshToken(lookupHash);
      if session.None? {
        return Failure(Unauthorized(InvalidRefreshToken));
      }
      var s := session.value;
      // `session.user` is the joined owner row; a missing owner fails inside the `try`.
      var owner := users.FindUserById(s.userId);
      if owner.None? {
        return Failure(Unauthorized(InvalidRefreshToken));
      }
      var tokens := RotateSession(s, owner.value, now);
      r := Success(tokens);
      assert s in old(users.sessions);
      assert Rotation(old(users.sessions), users.sessions, users.users, s,
                      Bcrypt(SaltRounds, old(users.salts.drawn), refreshToken),
                      Bcrypt(SaltRounds, old(users.salts.drawn) + 1, r.value.refreshToken), r.value, config, now);
    }

    /** The rotation step of `refresh`: tokens for the session's owner, the old session
        revoked, one new active session for the same user holding a digest of the new
        refresh token. */
    method RotateSession(s: Session, owner: User, now: int) returns (tokens: TokenPair)
      requires Valid() && UserById(users.users, s.userId) == Some(owner)
      modifies users, users.salts
      ensures Valid() && users.users == old(users.users)
      ensures tokens == GenerateTokens(config, PayloadOf(owner), now)
      ensures SessionsEvolve(old(users.sessions), users.sessions)
      ensures AppendedSession(RevokeById(old(users.sessions), s.id, now), users.sessions, s.userId,
                              Bcrypt(SaltRounds, old(users.salts.drawn), tokens.refreshToken), None, None, now)
      ensures users.salts.drawn == old(users.salts.drawn) + 1
    {
      tokens := GenerateTokens(config, PayloadOf(owner), now);
      users.RevokeSession(s.id, now);
      RevokeByIdEvolves(old(users.sessions), s.id, now);
      ghost var afterRevoke := users.sessions;
      var newHash := users.salts.Hash(tokens.refreshToken, SaltRounds);
      var created := users.CreateSession(s.userId, newHash, None, None, now);
      assert users.sessions == afterRevoke + [created];
      AppendEvolves(afterRevoke, users.sessions, s.userId, newHash, None, None, now);
      EvolveTransitive(old(users.sessions), afterRevoke, users.sessions);
    }

    /** `logout`: never fails; revokes at most one active session whose digest equals the
        lookup digest, and changes nothing when none matches (always, while salts are fresh). */
    method Logout(refreshToken: Jwt, now: int)
      requires Valid()
      modifies users, users.salts
      ensures Valid() && users.users == old(users.users)
      ensures SessionsEvolve(old(users.sessions), users.sessions)
      ensures users.sessions == old(users.sessions)
        || exists s :: s in old(users.sessions) && s.Active()
             && s.refreshTokenHash == Bcrypt(SaltRounds, old(users.salts.drawn), refreshToken)
             && users.sessions == RevokeById(old(users.sessions), s.id, now)
      ensures forall i, j :: 0 <= i < j < |users.sessions| ==>
        users.sessions[i] == old(users.sessions)[i] || users.sessions[j] == old(users.sessions)[j]
      ensures old(users.SaltsFresh()) ==> users.sessions == old(users.sessions) && users.SaltsFresh()
    {
      var lookupHash := users.salts.Hash(refreshToken, SaltRounds);
      var session := users.FindSessionByRefreshToken(lookupHash);
      if session.Some? {
        ghost var before := users.sessions;
        users.RevokeSession(session.value.id, now);
        RevokeByIdEvolves(before, session.value.id, now);
      }
    }

    /** `validateJwtPayload`: the user whose id is the `sub` claim, or Unauthorized. */
    method ValidateJwtPayload(payload: Payload) returns (r: Result<User, AuthError>)
      requires Valid()
      ensures r.Success? <==> IdInUse(users.users, payload.sub)
      ensures r.Success? ==> r.value in users.users && r.value.id == payload.sub
      ensures r.Failure? ==> r.error == Unauthorized(UserNotFound)
    {
      var user := users.FindUserById(payload.sub);
      if user.None? {
        return Failure(Unauthorized(UserNotFound));
      }
      r := Success(user.value);
    }
  }

  /** Registering and then logging in with the same credentials succeeds for the same user. */
  method RegisterThenLogin(auth: AuthService, email: string, password: string, now: int)
    returns (registered: Result<AuthResponse, AuthError>, loggedIn: Result<AuthResponse, AuthError>)
    requires auth.Valid() && !EmailTaken(auth.users.users, email)
    modifies auth.users, auth.users.salts
    ensures registered.Success? && loggedIn.Success?
    ensures registered.value.user.id == loggedIn.value.user.id
  {
    registered := auth.Register(email, password, None, None, now);
    ghost var u := auth.users.users[|old(auth.users.users)|];
    assert UserByEmail(auth.users.users, email) == Some(u);
    loggedIn := auth.Login(email, password, None, None, now);
  }

  /** The refresh token `register` has just issued verifies, yet `refresh` rejects it and
      leaves the sessions alone: the salted lookup cannot find the session it belongs to. */
  method IssuedRefreshTokenIsRejected(auth: AuthService, email: string, password: string, now: int)
    returns (registered: Result<AuthResponse, AuthError>, refreshed: Result<TokenPair, AuthError>)
    requires auth.Valid() && auth.users.SaltsFresh() && !EmailTaken(auth.users.users, email)
    modifies auth.users, auth.users.salts
    ensures registered.Success?
    ensures now < now + RefreshLifetime(auth.config).InSeconds() ==>
      Verify(registered.value.refreshToken, auth.config.refreshSecret, now).Some?
    ensures refreshed == Failure(Unauthorized(InvalidRefreshToken))
  {
    registered := auth.Register(email, password, None, None, now);
    refreshed := auth.Refresh(registered.value.refreshToken, now);
  }
}
