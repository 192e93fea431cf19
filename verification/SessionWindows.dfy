/** How long what a login issues is good for, over whole runs: access tokens, refresh tokens, locks and reset links. */
module SessionWindows {
  import opened Schema
  import opened AuthService
  import opened RefreshTokens

  /** Whom the event gives a new access token and a new refresh token. */
  function Issues(s: Auth, e: Event): Option<UserId> {
    match e
    case RegisterUser => Some(|s.users|)
    case LoginUser(u, passwordRight) => if Login(s, u, passwordRight).1 == Ok then Some(u) else None
    case RefreshToken(i) => if Refresh(s, i).1 == Ok then Some(s.tokens[i].user) else None
    case _ => None
  }

  lemma IssuedAre(s: Auth, e: Event)
    requires Sound(s)
    ensures var t := Step(s, e);
            match Issues(s, e)
            case None => t.signed == s.signed && |t.tokens| == |s.tokens|
            case Some(u) =>
              && u < |t.users| && |t.signed| == |s.signed| + 1 && |t.tokens| == |s.tokens| + 1
              && t.signed[|s.signed|] == Access(u, t.users[u].tokenVersion, s.now + 900_000)
              && t.tokens[|s.tokens|].user == u && Unrevoked(t.tokens[|s.tokens|])
              && t.tokens[|s.tokens|].expiresAt == s.now + 2_592_000_000
  {
  }

  ghost predicate EndedIn(s: Auth, events: seq<Event>, u: UserId)
    decreases |events|
  {
    events != [] && (EndsSessionsOf(s, events[0], u) || EndedIn(Step(s, events[0]), events[1..], u))
  }

  lemma StepCountsEnds(s: Auth, e: Event, u: UserId)
    requires u < |s.users|
    ensures u < |Step(s, e).users|
    ensures Step(s, e).users[u].tokenVersion == s.users[u].tokenVersion + if EndsSessionsOf(s, e, u) then 1 else 0
  {
  }

  lemma {:induction false} VersionIsKeptIff(s: Auth, events: seq<Event>, u: UserId)
    requires u < |s.users|
    ensures var t := Run(s, events);
            && u < |t.users| && s.users[u].tokenVersion <= t.users[u].tokenVersion
            && (t.users[u].tokenVersion == s.users[u].tokenVersion <==> !EndedIn(s, events, u))
    decreases |events|
  {
    hide Step, EndsSessionsOf;
    if events != [] {
      StepCountsEnds(s, events[0], u);
      VersionIsKeptIff(Step(s, events[0]), events[1..], u);
    }
  }

  /** An access token is admitted for fifteen minutes, exactly as long as its user's sessions were not ended since
      and the user is not suspended. */
  lemma AccessIsAdmittedIff(s: Auth, e: Event, later: seq<Event>)
    requires Sound(s) && Issues(s, e).Some?
    ensures var (issued, u) := (Step(s, e), Issues(s, e).value);
            var t := Run(issued, later);
            && |issued.signed| == |s.signed| + 1 && u < |t.users|
            && (Admits(t, issued.signed[|s.signed|]) <==>
                  t.now < s.now + 900_000 && !t.users[u].suspended && !EndedIn(issued, later, u))
  {
    IssuedAre(s, e);
    hide Step, EndedIn;
    VersionIsKeptIff(Step(s, e), later, Issues(s, e).value);
  }

  /** The event uses the refresh token up: it is exchanged, logged out, or goes with its user's sessions. */
  ghost predicate Spends(s: Auth, e: Event, i: TokenId)
    requires i < |s.tokens|
  {
    || (e == RefreshToken(i) && Refresh(s, i).1 == Ok)
    || e == LogoutToken(i)
    || EndsSessionsOf(s, e, s.tokens[i].user)
  }

  ghost predicate SpentIn(s: Auth, events: seq<Event>, i: TokenId)
    requires i < |s.tokens|
    decreases |events|
  {
    events != [] &&
    (Spends(s, events[0], i) || (i < |Step(s, events[0]).tokens| && SpentIn(Step(s, events[0]), events[1..], i)))
  }

  lemma StepSpends(s: Auth, e: Event, i: TokenId)
    requires Sound(s) && i < |s.tokens|
    ensures var t := Step(s, e);
            && i < |t.tokens| && t.tokens[i].user == s.tokens[i].user && t.tokens[i].expiresAt == s.tokens[i].expiresAt
            && (Unrevoked(t.tokens[i]) <==> Unrevoked(s.tokens[i]) && !Spends(s, e, i))
  {
    assert s.tokens[i].user < |s.users|;
    hide Chained;
  }

  lemma {:induction false} UnrevokedUnlessSpent(s: Auth, events: seq<Event>, i: TokenId)
    requires Sound(s) && i < |s.tokens| && Unrevoked(s.tokens[i])
    ensures var t := Run(s, events);
            && i < |t.tokens| && t.tokens[i].expiresAt == s.tokens[i].expiresAt
            && (Unrevoked(t.tokens[i]) <==> !SpentIn(s, events, i))
    decreases |events|
  {
    hide Step, Spends, Sound, Unrevoked;
    if events != [] {
      var t := Step(s, events[0]);
      StepSpends(s, events[0], i);
      RunKeepsSound(s, [events[0]]);
      assert Run(s, [events[0]]) == Run(t, []) == t;
      if Spends(s, events[0], i) {
        SpentStaysSpent(t, events[1..], i);
      } else {
        UnrevokedUnlessSpent(t, events[1..], i);
      }
    }
  }

  lemma {:induction false} SpentStaysSpent(s: Auth, events: seq<Event>, i: TokenId)
    requires Sound(s) && i < |s.tokens| && !Unrevoked(s.tokens[i])
    ensures var t := Run(s, events);
            i < |t.tokens| && t.tokens[i].expiresAt == s.tokens[i].expiresAt && !Unrevoked(t.tokens[i])
    decreases |events|
  {
    hide Step, Spends, Sound, Unrevoked;
    if events != [] {
      StepSpends(s, events[0], i);
      RunKeepsSound(s, [events[0]]);
      assert Run(s, [events[0]]) == Run(Step(s, events[0]), []) == Step(s, events[0]);
      SpentStaysSpent(Step(s, events[0]), events[1..], i);
    }
  }

  /** What a refresh token gets whenever it is presented: the alarm once it was used up in any way, a refusal when
      it is more than thirty days old, and otherwise new tokens. Unknown tokens alone are unknown. */
  lemma RefreshAnswers(s: Auth, e: Event, later: seq<Event>, i: TokenId)
    requires Sound(s) && Issues(s, e).Some?
    ensures var (issued, t) := (Step(s, e), Run(Step(s, e), later));
            && |issued.tokens| == |s.tokens| + 1
            && Refresh(t, |s.tokens|).1 ==
               (if SpentIn(issued, later, |s.tokens|) then RefreshTokenReused
                else if s.now + 2_592_000_000 < t.now then RefreshTokenExpired
                else Ok)
            && (Refresh(t, i).1 == InvalidRefreshToken <==> i >= |t.tokens|)
  {
    IssuedAre(s, e);
    RunKeepsSound(s, [e]);
    assert Run(s, [e]) == Run(Step(s, e), []) == Step(s, e);
    hide Step, SpentIn, Sound;
    UnrevokedUnlessSpent(Step(s, e), later, |s.tokens|);
  }

  // Login attempts.

  /** The time of the last wrong password given for u that was looked at. */
  function LastMiss(s: Auth, events: seq<Event>, u: UserId, before: nat): nat
    decreases |events|
  {
    if events == [] then before
    else LastMiss(Step(s, events[0]), events[1..], u, LastMissAfter(s, events[0], u, before))
  }

  function LastMissAfter(s: Auth, e: Event, u: UserId, before: nat): nat {
    if MissesAfter(s, e, u, 0) > 0 then s.now else before
  }

  function SuspendedAfter(s: Auth, e: Event, u: UserId, before: bool): bool {
    if e.SetSuspended? && e.user == u && u < |s.users| then e.suspended else before
  }

  /** Whether u is suspended: what the last decision about u says. */
  function SuspendedBy(s: Auth, events: seq<Event>, u: UserId, before: bool): bool
    decreases |events|
  {
    if events == [] then before
    else SuspendedBy(Step(s, events[0]), events[1..], u, SuspendedAfter(s, events[0], u, before))
  }

  predicate LockIs(s: Auth, u: UserId, misses: nat, last: nat, suspended: bool) {
    if u < |s.users|
    then
      && s.users[u].failedAttempts == misses && s.users[u].suspended == suspended
      && s.users[u].lockedUntil == if misses < 5 then None else Some(last + 900_000)
    else misses == 0 && !suspended
  }

  lemma StepKeepsLockIs(s: Auth, e: Event, u: UserId, misses: nat, last: nat, suspended: bool)
    requires LockIs(s, u, misses, last, suspended)
    ensures LockIs(Step(s, e), u, MissesAfter(s, e, u, misses), LastMissAfter(s, e, u, last),
                   SuspendedAfter(s, e, u, suspended))
  {
  }

  lemma {:induction false} RunKeepsLockIs(s: Auth, events: seq<Event>, u: UserId, misses: nat, last: nat,
                                          suspended: bool)
    requires LockIs(s, u, misses, last, suspended)
    ensures LockIs(Run(s, events), u, Misses(s, events, u, misses), LastMiss(s, events, u, last),
                   SuspendedBy(s, events, u, suspended))
    decreases |events|
  {
    hide Step, LockIs;
    if events != [] {
      var e := events[0];
      StepKeepsLockIs(s, e, u, misses, last, suspended);
      RunKeepsLockIs(Step(s, e), events[1..], u, MissesAfter(s, e, u, misses), LastMissAfter(s, e, u, last),
                     SuspendedAfter(s, e, u, suspended));
    }
  }

  /** What a login gets in any run: locked out for fifteen minutes after each wrong password from the fifth on,
      refused while suspended, and otherwise judged by the password alone. */
  lemma LoginAnswers(events: seq<Event>, u: UserId, passwordRight: bool)
    ensures var s := Run(FRESH, events);
            Login(s, u, passwordRight).1 ==
            if u >= |s.users| then InvalidCredentials
            else if 5 <= Misses(FRESH, events, u, 0) && s.now < LastMiss(FRESH, events, u, 0) + 900_000
            then AccountLocked
            else if SuspendedBy(FRESH, events, u, false) then AccountSuspended
            else if passwordRight then Ok
            else InvalidCredentials
  {
    RunKeepsLockIs(FRESH, events, u, 0, 0, false);
  }

  // Password resets.

  predicate UsedIn(s: Auth, events: seq<Event>, k: nat)
    decreases |events|
  {
    events != [] &&
    ((events[0] == ConfirmReset(k) && ConfirmPasswordReset(s, k).1 == Ok) || UsedIn(Step(s, events[0]), events[1..], k))
  }

  lemma StepUsesReset(s: Auth, e: Event, k: nat)
    requires k < |s.resets| && s.resets[k].user < |s.users|
    ensures var t := Step(s, e);
            && k < |t.resets| && t.resets[k].user == s.resets[k].user < |t.users|
            && t.resets[k].expiresAt == s.resets[k].expiresAt
            && (t.resets[k].used <==> s.resets[k].used || (e == ConfirmReset(k) && ConfirmPasswordReset(s, k).1 == Ok))
  {
  }

  lemma {:induction false} UsedOnceConfirmed(s: Auth, events: seq<Event>, k: nat)
    requires k < |s.resets| && s.resets[k].user < |s.users|
    ensures var t := Run(s, events);
            && k < |t.resets| && t.resets[k].user == s.resets[k].user < |t.users|
            && t.resets[k].expiresAt == s.resets[k].expiresAt
            && (t.resets[k].used <==> s.resets[k].used || UsedIn(s, events, k))
    decreases |events|
  {
    hide Step;
    if events != [] {
      StepUsesReset(s, events[0], k);
      UsedOnceConfirmed(Step(s, events[0]), events[1..], k);
    }
  }

  /** A reset link works once and for fifteen minutes, and ends its user's sessions. */
  lemma ResetWorksIff(s: Auth, u: UserId, later: seq<Event>)
    requires u < |s.users|
    ensures var (asked, t, k) := (Step(s, AskReset(u)), Run(Step(s, AskReset(u)), later), |s.resets|);
            && ConfirmPasswordReset(t, k).1 ==
               (if t.now <= s.now + 900_000 && !UsedIn(asked, later, k) then Ok else InvalidResetToken)
            && (ConfirmPasswordReset(t, k).1 == Ok ==> EndsSessionsOf(t, ConfirmReset(k), u))
  {
    UsedOnceConfirmed(Step(s, AskReset(u)), later, |s.resets|);
  }
}
