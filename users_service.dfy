/** The users service's two stores: user accounts with unique e-mail addresses, and one
    session row per issued refresh token, logically deleted by stamping `revokedAt`.
    bcrypt is an abstract salted hash: a digest records its cost, the salt it was made with and
    what was hashed; every hash draws a fresh salt from a `SaltSource`. */
module Users {
  import opened Outcomes
  import opened TokenIssuer

  type SessionId = nat

  /** `saltRounds` of every bcrypt call in the service. */
  const SaltRounds: nat := 10

  /** `bcrypt.hash(plain, rounds)`: injective in the cost, the salt and the hashed value. */
  datatype Digest<T> = Bcrypt(rounds: nat, salt: nat, preimage: T)

  /** `bcrypt.compare(plain, digest)`: re-hashing `plain` with the digest's salt gives the digest. */
  predicate Compare<T(==)>(plain: T, digest: Digest<T>) {
    Bcrypt(digest.rounds, digest.salt, plain) == digest
  }

  /** The random salts bcrypt draws. `drawn` counts the salts handed out so far; salt number
      `drawn` is unlike every earlier one. */
  class SaltSource {
    var drawn: nat

    constructor ()
      ensures drawn == 0
    {
      drawn := 0;
    }

    /** `bcrypt.hash(plain, rounds)` with a fresh salt. */
    method Hash<T>(plain: T, rounds: nat) returns (digest: Digest<T>)
      modifies this
      ensures digest == Bcrypt(rounds, old(drawn), plain)
      ensures drawn == old(drawn) + 1
    {
      digest := Bcrypt(rounds, drawn, plain);
      drawn := drawn + 1;
    }
  }

  datatype AuthError = Conflict(message: string) | Unauthorized(message: string)

  const EmailTakenMessage := "User with this email already exists"

  datatype User = User(id: UserId, email: string, passwordHash: Digest<string>, role: string, createdAt: int)

  datatype Session = Session(
    id: SessionId,
    userId: UserId,
    refreshTokenHash: Digest<Jwt>,
    userAgent: Option<string>,
    ip: Option<string>,
    createdAt: int,
    revokedAt: Option<int>)
  {
    /** A session is active until `revokedAt` is set. */
    predicate Active() { revokedAt.None? }
  }

  predicate EmailTaken(users: seq<User>, email: string) {
    exists i :: 0 <= i < |users| && users[i].email == email
  }

  predicate IdInUse(users: seq<User>, id: UserId) {
    exists i :: 0 <= i < |users| && users[i].id == id
  }

  /** The row `findOne({where: {email}})` returns: the first with that e-mail. */
  function UserByEmail(users: seq<User>, email: string): (r: Option<User>)
    ensures r.Some? <==> EmailTaken(users, email)
    ensures r.Some? ==> r.value in users && r.value.email == email
  {
    if users == [] then None
    else if users[0].email == email then Some(users[0])
    else UserByEmail(users[1..], email)
  }

  /** The row `findOne({where: {id}})` returns. */
  function UserById(users: seq<User>, id: UserId): (r: Option<User>)
    ensures r.Some? <==> IdInUse(users, id)
    ensures r.Some? ==> r.value in users && r.value.id == id
  {
    if users == [] then None
    else if users[0].id == id then Some(users[0])
    else UserById(users[1..], id)
  }

  /** The row `findOne({where: {refreshTokenHash, revokedAt: IsNull()}})` returns. */
  function ActiveSessionByHash(sessions: seq<Session>, hash: Digest<Jwt>): (r: Option<Session>)
    ensures r.Some? ==> r.value in sessions && r.value.refreshTokenHash == hash && r.value.Active()
    ensures r.None? ==> forall i :: 0 <= i < |sessions| && sessions[i].Active() ==> sessions[i].refreshTokenHash != hash
  {
    if sessions == [] then None
    else if sessions[0].refreshTokenHash == hash && sessions[0].Active() then Some(sessions[0])
    else ActiveSessionByHash(sessions[1..], hash)
  }

  /** The sessions after `update(sessionId, {revokedAt: now})`: the row with that id is
      stamped, whether or not it was already revoked; every other row is unchanged. */
  function RevokeById(sessions: seq<Session>, id: SessionId, now: int): (r: seq<Session>)
    ensures |r| == |sessions|
    ensures forall i :: 0 <= i < |r| ==>
      r[i] == if sessions[i].id == id then sessions[i].(revokedAt := Some(now)) else sessions[i]
  {
    seq(|sessions|, i requires 0 <= i < |sessions| =>
      if sessions[i].id == id then sessions[i].(revokedAt := Some(now)) else sessions[i])
  }

  /** The sessions after `update({userId, revokedAt: IsNull()}, {revokedAt: now})`. */
  function RevokeAllOfUser(sessions: seq<Session>, userId: UserId, now: int): (r: seq<Session>)
    ensures |r| == |sessions|
    ensures forall i :: 0 <= i < |r| ==>
      r[i] == if sessions[i].userId == userId && sessions[i].Active()
              then sessions[i].(revokedAt := Some(now)) else sessions[i]
  {
    seq(|sessions|, i requires 0 <= i < |sessions| =>
      if sessions[i].userId == userId && sessions[i].Active()
      then sessions[i].(revokedAt := Some(now)) else sessions[i])
  }

  /** One step of the session state machine ACTIVE -> REVOKED: `after` is `before` or a
      revocation of it; nothing else about the row changes and nothing clears `revokedAt`. */
  predicate SessionStep(before: Session, after: Session) {
    after == before || (after.revokedAt.Some? && after == before.(revokedAt := after.revokedAt))
  }

  /** Every existing row took at most one state-machine step; rows may only be added at the end. */
  predicate SessionsEvolve(before: seq<Session>, after: seq<Session>) {
    |before| <= |after| && forall i :: 0 <= i < |before| ==> SessionStep(before[i], after[i])
  }

  /** Revoking a session twice leaves it revoked: revocation state is idempotent, only the
      timestamp moves to the later call. */
  lemma RevokeByIdTwice(sessions: seq<Session>, id: SessionId, t1: int, t2: int)
    ensures RevokeById(RevokeById(sessions, id, t1), id, t2) == RevokeById(sessions, id, t2)
  {
  }

  /** Revoking by id is a state-machine step for every row, and afterwards no row with that
      id is active. */
  lemma {:induction false} RevokeByIdEvolves(sessions: seq<Session>, id: SessionId, now: int)
    ensures SessionsEvolve(sessions, RevokeById(sessions, id, now))
    ensures forall i :: 0 <= i < |sessions| && sessions[i].id == id ==> !RevokeById(sessions, id, now)[i].Active()
  {
  }

  /** Revoking all of a user's sessions is a state-machine step for every row, leaves no
      active session of that user, and keeps revoked rows (with their timestamps) and other
      users' rows exactly as they were. */
  lemma RevokeAllEvolves(sessions: seq<Session>, userId: UserId, now: int)
    ensures SessionsEvolve(sessions, RevokeAllOfUser(sessions, userId, now))
    ensures forall i :: 0 <= i < |sessions| && sessions[i].userId == userId ==> !RevokeAllOfUser(sessions, userId, now)[i].Active()
    ensures forall i :: 0 <= i < |sessions| && (sessions[i].userId != userId || !sessions[i].Active()) ==>
      RevokeAllOfUser(sessions, userId, now)[i] == sessions[i]
  {
  }

  /** The state-machine relation composes: a run of operations that each evolve the
      sessions evolves them overall, so a revoked session is never reactivated. */
  lemma {:induction false} EvolveTransitive(a: seq<Session>, b: seq<Session>, c: seq<Session>)
    requires SessionsEvolve(a, b) && SessionsEvolve(b, c)
    ensures SessionsEvolve(a, c)
  {
    forall i | 0 <= i < |a| ensures SessionStep(a[i], c[i]) {
      assert SessionStep(a[i], b[i]) && SessionStep(b[i], c[i]);
    }
  }

  class UsersService {
    var users: seq<User>
    var sessions: seq<Session>
    /** Identity columns: the next user id and session id the database hands out. */
    var nextUserId: nat
    var nextSessionId: nat
    const salts: SaltSource

    /** Ids are unique and below the identity counters; e-mails are unique (the `unique`
        column constraint). */
    ghost predicate Valid()
      reads this
    {
      && (forall i :: 0 <= i < |users| ==> users[i].id < nextUserId)
      && (forall i, j :: 0 <= i < j < |users| ==> users[i].id != users[j].id && users[i].email != users[j].email)
      && (forall i :: 0 <= i < |sessions| ==> sessions[i].id < nextSessionId)
      && (forall i, j :: 0 <= i < j < |sessions| ==> sessions[i].id != sessions[j].id)
    }

    /** Every stored digest was made with a salt drawn before `bound`. */
    ghost predicate DigestsBelow(bound: nat)
      reads this
    {
      && (forall i :: 0 <= i < |users| ==> users[i].passwordHash.salt < bound)
      && (forall i :: 0 <= i < |sessions| ==> sessions[i].refreshTokenHash.salt < bound)
    }

    /** The next salt bcrypt draws differs from every salt in a stored digest. */
    ghost predicate SaltsFresh()
      reads this, salts
    {
      DigestsBelow(salts.drawn)
    }

    constructor (salts: SaltSource)
      requires salts.drawn == 0
      ensures Valid() && SaltsFresh()
      ensures this.salts == salts && users == [] && sessions == []
    {
      this.salts := salts;
      users, sessions := [], [];
      nextUserId, nextSessionId := 0, 0;
    }

    /** `createUser(email, password)`: Conflict when the e-mail is taken, otherwise one new
        user with role `user` and a bcrypt digest of the password. */
    method CreateUser(email: string, password: string, now: int) returns (r: Result<User, AuthError>)
      requires Valid()
      modifies this, salts
      ensures Valid() && sessions == old(sessions)
      ensures old(EmailTaken(users, email)) ==>
        r == Failure(Conflict(EmailTakenMessage)) && users == old(users) && salts.drawn == old(salts.drawn)
      ensures !old(EmailTaken(users, email)) ==>
        && r.Success?
        && users == old(users) + [r.value]
        && !old(IdInUse(users, r.value.id))
        && r.value.email == email && r.value.role == "user" && r.value.createdAt == now
        && r.value.passwordHash == Bcrypt(SaltRounds, old(salts.drawn), password)
        && salts.drawn == old(salts.drawn) + 1
      ensures old(SaltsFresh()) ==> SaltsFresh()
    {
      var existing := UserByEmail(users, email);
      if existing.Some? {
        return Failure(Conflict(EmailTakenMessage));
      }
      var passwordHash := salts.Hash(password, SaltRounds);
      var user := User(nextUserId, email, passwordHash, "user", now);
      users := users + [user];
      nextUserId := nextUserId + 1;
      r := Success(user);
    }

    /** `findUserByEmail`: a read-only lookup. */
    method FindUserByEmail(email: string) returns (r: Option<User>)
      requires Valid()
      ensures r.Some? <==> EmailTaken(users, email)
      ensures r.Some? ==> r.value in users && r.value.email == email
      ensures r == UserByEmail(users, email)
    {
      r := UserByEmail(users, email);
    }

    /** `findUserById`: a read-only lookup. */
    method FindUserById(id: UserId) returns (r: Option<User>)
      requires Valid()
      ensures r.Some? <==> IdInUse(users, id)
      ensures r.Some? ==> r.value in users && r.value.id == id
      ensures r == UserById(users, id)
    {
      r := UserById(users, id);
    }

    /** `createSession`: appends one active row with a fresh id; existing rows are unchanged. */
    method CreateSession(userId: UserId, refreshTokenHash: Digest<Jwt>, userAgent: Option<string>, ip: Option<string>, now: int)
      returns (s: Session)
      requires Valid()
      modifies this
      ensures Valid() && users == old(users)
      ensures sessions == old(sessions) + [s]
      ensures s == Session(s.id, userId, refreshTokenHash, userAgent, ip, now, None)
      ensures forall i :: 0 <= i < |old(sessions)| ==> old(sessions)[i].id != s.id
      ensures old(DigestsBelow(salts.drawn)) && refreshTokenHash.salt < salts.drawn ==> SaltsFresh()
    {
      s := Session(nextSessionId, userId, refreshTokenHash, userAgent, ip, now, None);
      sessions := sessions + [s];
      nextSessionId := nextSessionId + 1;
    }

    /** `findSessionByRefreshToken(hash)`: only an active row whose stored digest equals
        `hash` is ever returned. */
    method FindSessionByRefreshToken(hash: Digest<Jwt>) returns (r: Option<Session>)
      ensures r == ActiveSessionByHash(sessions, hash)
      ensures r.Some? ==> r.value in sessions && r.value.refreshTokenHash == hash && r.value.Active()
      ensures r.None? ==> forall i :: 0 <= i < |sessions| && sessions[i].Active() ==> sessions[i].refreshTokenHash != hash
    {
      r := ActiveSessionByHash(sessions, hash);
    }

    /** `revokeSession(sessionId)`: stamps that row, and no other, with `now`. */
    method RevokeSession(sessionId: SessionId, now: int)
      requires Valid()
      modifies this
      ensures Valid() && users == old(users)
      ensures sessions == RevokeById(old(sessions), sessionId, now)
      ensures old(DigestsBelow(salts.drawn)) ==> SaltsFresh()
    {
      sessions := RevokeById(sessions, sessionId, now);
    }

    /** `revokeAllUserSessions(userId)`: stamps every active row of that user. */
    method RevokeAllUserSessions(userId: UserId, now: int)
      requires Valid()
      modifies this
      ensures Valid() && users == old(users)
      ensures sessions == RevokeAllOfUser(old(sessions), userId, now)
      ensures old(DigestsBelow(salts.drawn)) ==> SaltsFresh()
    {
      sessions := RevokeAllOfUser(sessions, userId, now);
    }
  }

  /** `validatePassword(user, password)`. */
  predicate ValidatePassword(user: User, password: string): (valid: bool)
    ensures valid <==> password == user.passwordHash.preimage
  {
    Compare(password, user.passwordHash)
  }

  /** A password checks against the digest made from it, and no other password does. */
  lemma PasswordCheck(id: UserId, email: string, password: string, candidate: string, salt: nat, now: int)
    ensures ValidatePassword(User(id, email, Bcrypt(SaltRounds, salt, password), "user", now), candidate)
      <==> candidate == password
  {
  }

  /** Under a salted hash, a lookup digest made with a salt that no stored digest used matches
      no session, whatever token it was made from. */
  lemma FreshDigestMatchesNothing(sessions: seq<Session>, bound: nat, token: Jwt)
    requires forall i :: 0 <= i < |sessions| ==> sessions[i].refreshTokenHash.salt < bound
    ensures ActiveSessionByHash(sessions, Bcrypt(SaltRounds, bound, token)).None?
  {
  }
}
