/** Sessions over whole runs: refresh-token chains, reuse detection, what a version bump revokes, and login locks. */
module RefreshTokens {
  import opened Schema
  import opened AuthService

  datatype Event =
    | Tick(ms: nat)
    | RegisterUser
    | LoginUser(user: UserId, passwordRight: bool)
    | RefreshToken(token: TokenId)
    | LogoutToken(token: TokenId)
    | LogoutEverywhere(user: UserId)
    | AskReset(user: UserId)
    | ConfirmReset(reset: nat)
    | SetSuspended(user: UserId, suspended: bool)

  function Step(s: Auth, e: Event): Auth {
    match e
    case Tick(ms) => s.(now := s.now + ms)
    case RegisterUser => Register(s)
    case LoginUser(u, passwordRight) => Login(s, u, passwordRight).0
    case RefreshToken(i) => Refresh(s, i).0
    case LogoutToken(i) => Logout(s, i)
    case LogoutEverywhere(u) => LogoutAll(s, u)
    case AskReset(u) => RequestPasswordReset(s, u)
    case ConfirmReset(k) => ConfirmPasswordReset(s, k).0
    case SetSuspended(u, suspended) => Suspend(s, u, suspended)
  }

  function Run(s: Auth, events: seq<Event>): Auth
    decreases |events|
  {
    if events == [] then s else Run(Step(s, events[0]), events[1..])
  }

  /** A token's place in its chain: it starts the chain or was issued in exchange for an earlier token of
      it; a replaced token is revoked and its replacement is a later token of the same chain. */
  predicate Linked(tokens: seq<Token>, i: TokenId)
    requires i < |tokens|
  {
    var token := tokens[i];
    && token.login <= i
    && tokens[token.login].user == token.user
    && tokens[token.login].login == token.login
    && (token.login == i || exists p: nat :: p < i && tokens[p].replacedBy == Some(i))
    && (token.replacedBy.Some? ==>
          && !Unrevoked(token)
          && i < token.replacedBy.value < |tokens|
          && tokens[token.replacedBy.value].login == token.login
          && tokens[token.replacedBy.value].user == token.user)
  }

  /** Every login's tokens form one acyclic chain, whose last token alone may be unrevoked. */
  ghost predicate Chained(tokens: seq<Token>) {
    && (forall i: nat | i < |tokens| :: Linked(tokens, i))
    && (forall i: nat, j: nat | i < j < |tokens| && tokens[i].replacedBy.Some? ::
          tokens[i].replacedBy != tokens[j].replacedBy)
    && (forall i: nat, j: nat | i < |tokens| && j < |tokens| && tokens[i].login == tokens[j].login
          && tokens[i].replacedBy.None? && tokens[j].replacedBy.None? :: i == j)
  }

  ghost predicate Sound(s: Auth) {
    && Chained(s.tokens)
    && (forall i: nat | i < |s.tokens| :: s.tokens[i].user < |s.users|)
    && (forall k: nat | k < |s.signed| ::
          s.signed[k].user < |s.users| && s.signed[k].version <= s.users[s.signed[k].user].tokenVersion)
  }

  lemma IssueKeepsChained(tokens: seq<Token>, u: UserId, expiresAt: nat)
    requires Chained(tokens)
    ensures Chained(tokens + [Token(u, |tokens|, expiresAt, None, None)])
  {
    var after := tokens + [Token(u, |tokens|, expiresAt, None, None)];
    forall i: nat | i < |after|
      ensures Linked(after, i)
    {
      if i < |tokens| {
        LinkSurvives(tokens, after, i);
      }
    }
    forall i: nat | i < |tokens|
      ensures after[i].login != |tokens|
    {
      assert Linked(tokens, i);
    }
  }

  /** Growing the table and revoking tokens breaks no link. */
  lemma LinkSurvives(before: seq<Token>, after: seq<Token>, i: TokenId)
    requires Chained(before) && i < |before| <= |after|
    requires forall k: nat | k < |before| ::
      && after[k].user == before[k].user && after[k].login == before[k].login
      && (before[k].replacedBy.Some? ==> after[k].replacedBy == before[k].replacedBy)
    requires before[i].replacedBy == after[i].replacedBy
    requires !Unrevoked(before[i]) ==> !Unrevoked(after[i])
    ensures Linked(after, i)
  {
    assert Linked(before, i);
  }

  lemma RevocationKeepsChained(before: seq<Token>, after: seq<Token>)
    requires Chained(before) && |after| == |before|
    requires forall k: nat | k < |before| ::
      after[k] == before[k] || (exists now :: after[k] == before[k].(revokedAt := Some(now)))
    ensures Chained(after)
  {
    forall i: nat | i < |after|
      ensures Linked(after, i)
    {
      LinkSurvives(before, after, i);
    }
  }

  lemma RotateKeepsChained(s: Auth, i: TokenId)
    requires Chained(s.tokens) && i < |s.tokens| && Unrevoked(s.tokens[i])
    ensures Chained(Rotate(s, i).tokens)
  {
    var before, after := s.tokens, Rotate(s, i).tokens;
    assert Linked(before, i);
    forall k: nat | k < |after|
      ensures Linked(after, k)
    {
      if k == |before| {
        assert after[i].replacedBy == Some(k);
      } else if k != i {
        LinkSurvives(before, after, k);
      } else if before[i].login != i {
        var p: nat :| p < i && before[p].replacedBy == Some(i);
        assert after[p].replacedBy == Some(i);
      }
    }
    forall k: nat | k < |before|
      ensures before[k].replacedBy != Some(|before|)
    {
      assert Linked(before, k);
    }
  }

  lemma StepKeepsChained(s: Auth, e: Event)
    requires Sound(s)
    ensures Chained(Step(s, e).tokens)
  {
    match e
    case RegisterUser => IssueKeepsChained(s.tokens, |s.users|, s.now + REFRESH_TOKEN_TTL_MS);
    case LoginUser(u, _) => IssueKeepsChained(s.tokens, u, s.now + REFRESH_TOKEN_TTL_MS);
    case RefreshToken(i) =>
      if ScreenRefresh(s, i) == Ok {
        RotateKeepsChained(s, i);
      } else if ScreenRefresh(s, i) == RefreshTokenReused {
        EndSessionsKeepsChained(s, s.tokens[i].user);
      }
    case LogoutToken(i) =>
      if i < |s.tokens| {
        RevokedAtIndex(s, i);
      }
    case LogoutEverywhere(u) =>
      if u < |s.users| {
        EndSessionsKeepsChained(s, u);
      }
    case ConfirmReset(k) =>
      if ConfirmPasswordReset(s, k).1 == Ok {
        EndSessionsKeepsChained(s, s.resets[k].user);
      }
    case _ =>
  }

  lemma RevokedAtIndex(s: Auth, i: TokenId)
    requires Chained(s.tokens) && i < |s.tokens|
    ensures Chained(Logout(s, i).tokens)
  {
    RevocationKeepsChained(s.tokens, Logout(s, i).tokens);
  }

  lemma EndSessionsKeepsChained(s: Auth, u: UserId)
    requires Chained(s.tokens) && u < |s.users|
    ensures Chained(EndSessions(s, u).tokens)
  {
    RevocationKeepsChained(s.tokens, EndSessions(s, u).tokens);
  }

  lemma StepKeepsOwners(s: Auth, e: Event)
    requires Sound(s)
    ensures var t := Step(s, e);
            && |s.users| <= |t.users|
            && (forall i: nat | i < |t.tokens| :: t.tokens[i].user < |t.users|)
            && (forall k: nat | k < |t.signed| ::
                  t.signed[k].user < |t.users| && t.signed[k].version <= t.users[t.signed[k].user].tokenVersion)
  {
  }

  lemma {:induction false} RunKeepsSound(s: Auth, events: seq<Event>)
    requires Sound(s)
    ensures Sound(Run(s, events))
    decreases |events|
  {
    if events != [] {
      StepKeepsChained(s, events[0]);
      StepKeepsOwners(s, events[0]);
      RunKeepsSound(Step(s, events[0]), events[1..]);
    }
  }

  const FRESH: Auth := Auth(0, [], [], [], [])

  /** With refreshes atomic, in every reachable state a login has one unrevoked token at most. Replacements only
      lead to later tokens of the same login, no two tokens have the same replacement, and every token but
      the login's first is the replacement of one: each login's tokens are one acyclic chain. */
  lemma OneLiveTokenPerLogin(events: seq<Event>, i: TokenId, j: TokenId)
    ensures var tokens := Run(FRESH, events).tokens;
            i < |tokens| && j < |tokens| ==>
              && (tokens[i].login == tokens[j].login && Unrevoked(tokens[i]) && Unrevoked(tokens[j]) ==> i == j)
              && (tokens[i].replacedBy == Some(j) ==>
                    i < j && tokens[i].login == tokens[j].login && !Unrevoked(tokens[i]))
              && (tokens[i].replacedBy.Some? && tokens[i].replacedBy == tokens[j].replacedBy ==> i == j)
              && (tokens[i].login == i || exists p: nat :: p < i && tokens[p].replacedBy == Some(i))
  {
    RunKeepsSound(FRESH, events);
    var tokens := Run(FRESH, events).tokens;
    if i < |tokens| && j < |tokens| {
      assert Linked(tokens, i) && Linked(tokens, j);
    }
  }

  /** Replaying a revoked token, signing out everywhere and resetting the password all end the user's sessions. */
  ghost predicate EndsSessionsOf(s: Auth, e: Event, u: UserId) {
    match e
    case RefreshToken(i) => i < |s.tokens| && !Unrevoked(s.tokens[i]) && s.tokens[i].user == u
    case LogoutEverywhere(v) => v == u
    case ConfirmReset(k) => ConfirmPasswordReset(s, k).1 == Ok && s.resets[k].user == u
    case _ => false
  }

  lemma EndLeavesNoToken(s: Auth, e: Event, u: UserId)
    requires Sound(s) && u < |s.users| && EndsSessionsOf(s, e, u)
    ensures forall i: nat | i < |Step(s, e).tokens| && Step(s, e).tokens[i].user == u ::
              !Unrevoked(Step(s, e).tokens[i])
    ensures |Step(s, e).users| == |s.users|
    ensures Step(s, e).users[u].tokenVersion == s.users[u].tokenVersion + 1
    ensures Step(s, e).signed == s.signed
  {
  }

  lemma StepRaisesVersions(s: Auth, e: Event, u: UserId)
    requires u < |s.users|
    ensures |s.users| <= |Step(s, e).users| && s.users[u].tokenVersion <= Step(s, e).users[u].tokenVersion
    ensures s.signed <= Step(s, e).signed
  {
  }

  lemma {:induction false} SupersededStaysRefused(s: Auth, events: seq<Event>, access: Access)
    requires access.user < |s.users| && access.version < s.users[access.user].tokenVersion
    ensures !Admits(Run(s, events), access)
    decreases |events|
  {
    if events != [] {
      StepRaisesVersions(s, events[0], access.user);
      SupersededStaysRefused(Step(s, events[0]), events[1..], access);
    }
  }

  /** A token that was revoked stays revoked, and its user's row stays there. */
  lemma StepKeepsRevoked(s: Auth, e: Event, i: TokenId)
    requires i < |s.tokens| && !Unrevoked(s.tokens[i])
    ensures i < |Step(s, e).tokens| && !Unrevoked(Step(s, e).tokens[i])
  {
  }

  lemma {:induction false} RevokedStaysReused(s: Auth, events: seq<Event>, i: TokenId)
    requires i < |s.tokens| && !Unrevoked(s.tokens[i])
    ensures Refresh(Run(s, events), i).1 == RefreshTokenReused
    decreases |events|
  {
    hide Step;
    if events != [] {
      StepKeepsRevoked(s, events[0], i);
      RevokedStaysReused(Step(s, events[0]), events[1..], i);
    }
  }

  /** After a session end, whatever happens later, every refresh token that the user had by then is taken for a
      replay, and no access token signed before is ever admitted again. */
  lemma SessionEndIsFinal(s: Auth, e: Event, u: UserId, later: seq<Event>, i: TokenId, k: nat)
    requires Sound(s) && u < |s.users| && EndsSessionsOf(s, e, u)
    ensures i < |Step(s, e).tokens| && Step(s, e).tokens[i].user == u ==>
              Refresh(Run(Step(s, e), later), i).1 == RefreshTokenReused
    ensures k < |s.signed| && s.signed[k].user == u ==> !Admits(Run(Step(s, e), later), s.signed[k])
  {
    EndLeavesNoToken(s, e, u);
    hide Step;
    if i < |Step(s, e).tokens| && Step(s, e).tokens[i].user == u {
      RevokedStaysReused(Step(s, e), later, i);
    }
    if k < |s.signed| && s.signed[k].user == u {
      SupersededStaysRefused(Step(s, e), later, s.signed[k]);
    }
  }

  predicate LoneLive(tokens: seq<Token>, login: TokenId) {
    forall i: nat, j: nat | i < |tokens| && j < |tokens| && tokens[i].login == login && tokens[j].login == login
      && Unrevoked(tokens[i]) && Unrevoked(tokens[j]) :: i == j
  }

  predicate OtherLive(tokens: seq<Token>, i: TokenId)
    requires i < |tokens|
  {
    exists k: nat :: k < |tokens| && k != i && tokens[k].login == tokens[i].login && Unrevoked(tokens[k])
  }

  /** What atomic refreshes are needed for. The rotation writes without looking again: it leaves its login
      one live token exactly when no other token of the login was live when it wrote. */
  lemma RotationLeavesOneLiveIff(s: Auth, i: TokenId)
    requires i < |s.tokens|
    ensures LoneLive(Rotate(s, i).tokens, s.tokens[i].login) <==> !OtherLive(s.tokens, i)
  {
    var before, after := s.tokens, Rotate(s, i).tokens;
    var login := before[i].login;
    assert after[|before|].login == login && Unrevoked(after[|before|]);
    if OtherLive(before, i) {
      var k: nat :| k < |before| && k != i && before[k].login == login && Unrevoked(before[k]);
      assert after[k] == before[k];
    } else {
      forall k: nat | k < |before|
        ensures !(after[k].login == login && Unrevoked(after[k]))
      {
        assert k != i ==> after[k] == before[k];
      }
    }
  }

  /** Two overlapping refreshes of one token, or a refresh overlapping a sign-out everywhere: the later
      rotation leaves a live token that should not be there. */
  lemma OverlappingRefreshesFork(s: Auth, i: TokenId)
    requires Sound(s) && ScreenRefresh(s, i) == Ok
    ensures !LoneLive(Rotate(Rotate(s, i), i).tokens, s.tokens[i].login)
    ensures ScreenRefresh(Rotate(LogoutAll(s, s.tokens[i].user), i), |s.tokens|) == Ok
  {
    var once := Rotate(s, i);
    assert once.tokens[|s.tokens|].login == s.tokens[i].login;
    assert OtherLive(once.tokens, i);
    RotationLeavesOneLiveIff(once, i);
  }

  // Login attempts.

  predicate LocksRight(users: seq<User>) {
    forall u: nat | u < |users| :: users[u].lockedUntil.Some? <==> MAX_FAILED_LOGIN_ATTEMPTS <= users[u].failedAttempts
  }

  /** A wrong password that is looked at is one miss more, a right one ends the count. */
  function MissesAfter(s: Auth, e: Event, u: UserId, before: nat): nat {
    if !(e.LoginUser? && e.user == u && u < |s.users|) then before
    else
      match Login(s, u, e.passwordRight).1
      case Ok => 0
      case InvalidCredentials => before + 1
      case _ => before
  }

  /** The wrong passwords given for u since the last right one, as far as they were looked at. */
  function Misses(s: Auth, events: seq<Event>, u: UserId, before: nat): nat
    decreases |events|
  {
    if events == [] then before else Misses(Step(s, events[0]), events[1..], u, MissesAfter(s, events[0], u, before))
  }

  lemma {:induction false} AttemptsAreMisses(s: Auth, events: seq<Event>, u: UserId, before: nat)
    requires LocksRight(s.users) && before == (if u < |s.users| then s.users[u].failedAttempts else 0)
    ensures LocksRight(Run(s, events).users)
    ensures u < |Run(s, events).users| ==> Run(s, events).users[u].failedAttempts == Misses(s, events, u, before)
    decreases |events|
  {
    if events != [] {
      var t := Step(s, events[0]);
      AttemptsAreMisses(t, events[1..], u, if u < |t.users| then t.users[u].failedAttempts else 0);
    }
  }

  /** In every run an account carries a lock exactly when five or more wrong passwords were looked at since its
      last login, and while the lock lasts even the right password gets no tokens. The count is not reset
      when a lock runs out, so from then on each further wrong password locks the account again. */
  lemma LockedExactlyFromTheFifthMiss(events: seq<Event>, u: UserId, passwordRight: bool)
    requires u < |Run(FRESH, events).users|
    ensures var s := Run(FRESH, events);
            && (s.users[u].lockedUntil.Some? <==> MAX_FAILED_LOGIN_ATTEMPTS <= Misses(FRESH, events, u, 0))
            && (s.users[u].lockedUntil.Some? && s.now < s.users[u].lockedUntil.value ==>
                  Login(s, u, passwordRight) == (s, AccountLocked))
            && (s.users[u].lockedUntil.Some? && s.users[u].lockedUntil.value <= s.now && !s.users[u].suspended ==>
                  Login(s, u, false).0.users[u].lockedUntil == Some(s.now + LOCKOUT_MS))
  {
    AttemptsAreMisses(FRESH, events, u, 0);
  }
}
