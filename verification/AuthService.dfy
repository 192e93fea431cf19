/** server/src/services/auth.service.ts and server/src/middleware/auth.ts: sessions. A refresh token's hash
    identifies its row, so a row's index stands for the raw token; access tokens are unforgeable. */
module AuthService {
  import opened Schema

  type UserId = nat
  type TokenId = nat

  const ACCESS_TOKEN_TTL_MS: nat := 900_000
  const REFRESH_TOKEN_TTL_MS: nat := 2_592_000_000
  const PASSWORD_RESET_TTL_MS: nat := 900_000
  const MAX_FAILED_LOGIN_ATTEMPTS: nat := 5
  const LOCKOUT_MS: nat := 900_000

  datatype User = User(tokenVersion: nat, suspended: bool, failedAttempts: nat, lockedUntil: Option<nat>)

  /** A refresh token row. `login` remembers the first token of its chain, the one a login issued. */
  datatype Token = Token(user: UserId, login: TokenId, expiresAt: nat,
                         revokedAt: Option<nat>, replacedBy: Option<TokenId>)

  datatype Access = Access(user: UserId, version: nat, expiresAt: nat)

  datatype Reset = Reset(user: UserId, expiresAt: nat, used: bool)

  /** `signed` lists every access token ever signed. */
  datatype Auth = Auth(now: nat, users: seq<User>, tokens: seq<Token>, resets: seq<Reset>, signed: seq<Access>)

  datatype Reply =
    | Ok
    | InvalidCredentials
    | AccountLocked
    | AccountSuspended
    | InvalidRefreshToken
    | RefreshTokenReused
    | RefreshTokenExpired
    | InvalidResetToken

  predicate Unrevoked(token: Token) { token.revokedAt.None? }

  function SetUser(s: Auth, u: UserId, user: User): Auth
    requires u < |s.users|
  {
    s.(users := s.users[u := user])
  }

  function Bump(user: User): User { user.(tokenVersion := user.tokenVersion + 1) }

  function RevokedIf(token: Token, hit: bool, now: nat): Token {
    if hit && Unrevoked(token) then token.(revokedAt := Some(now)) else token
  }

  /** Every unrevoked token of the user is revoked. */
  function RevokeAll(tokens: seq<Token>, u: UserId, now: nat): seq<Token> {
    seq(|tokens|, i requires 0 <= i < |tokens| => RevokedIf(tokens[i], tokens[i].user == u, now))
  }

  function Sign(s: Auth, u: UserId): Access
    requires u < |s.users|
  {
    Access(u, s.users[u].tokenVersion, s.now + ACCESS_TOKEN_TTL_MS)
  }

  function IssueTokenPair(s: Auth, u: UserId): Auth
    requires u < |s.users|
  {
    s.(tokens := s.tokens + [Token(u, |s.tokens|, s.now + REFRESH_TOKEN_TTL_MS, None, None)],
       signed := s.signed + [Sign(s, u)])
  }

  function Register(s: Auth): Auth {
    IssueTokenPair(s.(users := s.users + [User(0, false, 0, None)]), |s.users|)
  }

  function Missed(user: User, now: nat): User {
    var attempts := user.failedAttempts + 1;
    user.(failedAttempts := attempts,
          lockedUntil := if attempts >= MAX_FAILED_LOGIN_ATTEMPTS then Some(now + LOCKOUT_MS) else user.lockedUntil)
  }

  function Login(s: Auth, u: UserId, passwordRight: bool): (Auth, Reply) {
    if u >= |s.users| then (s, InvalidCredentials)
    else if s.users[u].lockedUntil.Some? && s.now < s.users[u].lockedUntil.value then (s, AccountLocked)
    else if s.users[u].suspended then (s, AccountSuspended)
    else if !passwordRight then (SetUser(s, u, Missed(s.users[u], s.now)), InvalidCredentials)
    else (IssueTokenPair(SetUser(s, u, s.users[u].(failedAttempts := 0, lockedUntil := None)), u), Ok)
  }

  /** The reuse transaction, and logoutAll. */
  function EndSessions(s: Auth, u: UserId): Auth
    requires u < |s.users|
  {
    SetUser(s, u, Bump(s.users[u])).(tokens := RevokeAll(s.tokens, u, s.now))
  }

  function ScreenRefresh(s: Auth, i: TokenId): Reply {
    if i >= |s.tokens| then InvalidRefreshToken
    else if !Unrevoked(s.tokens[i]) then RefreshTokenReused
    else if s.tokens[i].expiresAt < s.now then RefreshTokenExpired
    else Ok
  }

  /** The rotation transaction: it does not look at the token again. */
  function Rotate(s: Auth, i: TokenId): Auth
    requires i < |s.tokens|
  {
    var token := s.tokens[i];
    var created := s.tokens + [Token(token.user, token.login, s.now + REFRESH_TOKEN_TTL_MS, None, None)];
    s.(tokens := created[i := token.(revokedAt := Some(s.now), replacedBy := Some(|s.tokens|))])
  }

  function SignedFor(s: Auth, u: UserId): Auth {
    if u < |s.users| then s.(signed := s.signed + [Sign(s, u)]) else s
  }

  /** refreshTokens, with nothing between its check and its transaction. */
  function Refresh(s: Auth, i: TokenId): (Auth, Reply) {
    match ScreenRefresh(s, i)
    case Ok => (SignedFor(Rotate(s, i), s.tokens[i].user), Ok)
    case RefreshTokenReused =>
      (if s.tokens[i].user < |s.users| then EndSessions(s, s.tokens[i].user) else s, RefreshTokenReused)
    case reply => (s, reply)
  }

  function Logout(s: Auth, i: TokenId): Auth {
    if i < |s.tokens| then s.(tokens := s.tokens[i := RevokedIf(s.tokens[i], true, s.now)]) else s
  }

  function LogoutAll(s: Auth, u: UserId): Auth {
    if u < |s.users| then EndSessions(s, u) else s
  }

  function RequestPasswordReset(s: Auth, u: UserId): Auth {
    if u < |s.users| then s.(resets := s.resets + [Reset(u, s.now + PASSWORD_RESET_TTL_MS, false)]) else s
  }

  function ConfirmPasswordReset(s: Auth, k: nat): (Auth, Reply) {
    if k >= |s.resets| || s.resets[k].used || s.resets[k].expiresAt < s.now || s.resets[k].user >= |s.users|
    then (s, InvalidResetToken)
    else (EndSessions(s, s.resets[k].user).(resets := s.resets[k := s.resets[k].(used := true)]), Ok)
  }

  function Suspend(s: Auth, u: UserId, suspended: bool): Auth {
    if u < |s.users| then SetUser(s, u, s.users[u].(suspended := suspended)) else s
  }

  /** requireAuth. */
  predicate Admits(s: Auth, access: Access) {
    && s.now < access.expiresAt
    && access.user < |s.users|
    && s.users[access.user].tokenVersion == access.version
    && !s.users[access.user].suspended
  }

  /** The tables the service writes to. */
  class AuthDatabase {
    var now: nat
    var users: seq<User>
    var tokens: seq<Token>
    var resets: seq<Reset>
    var signed: seq<Access>

    function Snapshot(): Auth
      reads this
    {
      Auth(now, users, tokens, resets, signed)
    }

    constructor ()
      ensures Snapshot() == Auth(0, [], [], [], [])
    {
      now, users, tokens, resets, signed := 0, [], [], [], [];
    }

    method SignIn(u: UserId, passwordRight: bool) returns (reply: Reply)
      modifies this
      ensures (Snapshot(), reply) == Login(old(Snapshot()), u, passwordRight)
    {
      if u >= |users| {
        return InvalidCredentials;
      }
      var user := users[u];
      if user.lockedUntil.Some? && now < user.lockedUntil.value {
        return AccountLocked;
      }
      if user.suspended {
        return AccountSuspended;
      }
      if !passwordRight {
        var failedAttempts := user.failedAttempts + 1;
        user := user.(failedAttempts := failedAttempts);
        if failedAttempts >= MAX_FAILED_LOGIN_ATTEMPTS {
          user := user.(lockedUntil := Some(now + LOCKOUT_MS));
        }
        users := users[u := user];
        return InvalidCredentials;
      }
      users := users[u := user.(failedAttempts := 0, lockedUntil := None)];
      signed := signed + [Access(u, user.tokenVersion, now + ACCESS_TOKEN_TTL_MS)];
      tokens := tokens + [Token(u, |tokens|, now + REFRESH_TOKEN_TTL_MS, None, None)];
      return Ok;
    }

    /** updateMany over the user's unrevoked tokens, and the version bump beside it. */
    method SignOutEverywhere(u: UserId)
      requires u < |users|
      modifies this
      ensures Snapshot() == EndSessions(old(Snapshot()), u)
    {
      var i := 0;
      var before := tokens;
      while i < |tokens|
        invariant i <= |tokens| == |before|
        invariant forall k | 0 <= k < |before| ::
          tokens[k] == RevokedIf(before[k], k < i && before[k].user == u, now)
        invariant now == old(now) && users == old(users) && resets == old(resets) && signed == old(signed)
      {
        if tokens[i].user == u && tokens[i].revokedAt.None? {
          tokens := tokens[i := tokens[i].(revokedAt := Some(now))];
        }
        i := i + 1;
      }
      assert tokens == RevokeAll(before, u, now);
      users := users[u := users[u].(tokenVersion := users[u].tokenVersion + 1)];
    }

    method RefreshTokens(i: TokenId) returns (reply: Reply)
      modifies this
      ensures (Snapshot(), reply) == Refresh(old(Snapshot()), i)
    {
      if i >= |tokens| {
        return InvalidRefreshToken;
      }
      var existing := tokens[i];
      if existing.revokedAt.Some? {
        if existing.user < |users| {
          SignOutEverywhere(existing.user);
        }
        return RefreshTokenReused;
      }
      if existing.expiresAt < now {
        return RefreshTokenExpired;
      }
      var created := |tokens|;
      tokens := tokens + [Token(existing.user, existing.login, now + REFRESH_TOKEN_TTL_MS, None, None)];
      tokens := tokens[i := existing.(revokedAt := Some(now), replacedBy := Some(created))];
      if existing.user < |users| {
        signed := signed + [Access(existing.user, users[existing.user].tokenVersion, now + ACCESS_TOKEN_TTL_MS)];
      }
      return Ok;
    }

    method ResetPassword(k: nat) returns (reply: Reply)
      modifies this
      ensures (Snapshot(), reply) == ConfirmPasswordReset(old(Snapshot()), k)
    {
      if k >= |resets| || resets[k].used || resets[k].expiresAt < now || resets[k].user >= |users| {
        return InvalidResetToken;
      }
      SignOutEverywhere(resets[k].user);
      resets := resets[k := resets[k].(used := true)];
      return Ok;
    }
  }
}
