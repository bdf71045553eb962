/**
 Refresh-token rotation by any number of concurrent callers. Each database statement of
 `AuthService` is one step; between two statements of one call anything may happen. Besides
 the table the state keeps a history: every token ever issued, with the login it descends
 from, and the tokens that refreshes consumed.
 */
module Sessions {
  import opened Store

  type Hash = nat

  datatype Token = Token(userId: Id, rememberMe: bool)

  /** The login a token descends from, and what every token of that chain has in common. */
  datatype Origin = Origin(login: Hash, userId: Id, rememberMe: bool)

  /** Where a call stands between two of its statements. */
  datatype Phase =
    | Looked(token: Hash, userId: Id, rememberMe: bool)
    | Rotating(token: Hash, userId: Id, rememberMe: bool)
    | Leaving(token: Hash)

  datatype Sessions = Sessions(
    tokens: map<Hash, Token>, callers: map<Id, Phase>,
    issued: map<Hash, Origin>, consumed: seq<Hash>,
    logins: nat, logouts: nat, revoked: nat, lost: nat)

  const INITIAL := Sessions(map[], map[], map[], [], 0, 0, 0, 0)

  datatype Step =
    | Login(userId: Id, rememberMe: bool, newToken: Hash)
    | Look(caller: Id, userId: Id, token: Hash)
    | Delete(caller: Id)
    | Create(caller: Id, newToken: Hash)
    | Abandon(caller: Id)
    | LogoutLook(caller: Id, token: Hash)
    | LogoutDelete(caller: Id)
    | RevokeAll(userId: Id)

  function Issue(s: Sessions, h: Hash, t: Token, login: Hash): Sessions {
    s.(tokens := s.tokens[h := t], issued := s.issued[h := Origin(login, t.userId, t.rememberMe)])
  }

  /** The login that token `h` descends from; a token never issued would be its own. */
  function LoginOf(s: Sessions, h: Hash): Hash {
    if h in s.issued then s.issued[h].login else h
  }

  function Done(s: Sessions, caller: Id): Sessions {
    s.(callers := s.callers - {caller})
  }

  function OwnedBy(tokens: map<Hash, Token>, userId: Id): set<Hash> {
    set h | h in tokens && tokens[h].userId == userId
  }

  /** New tokens carry a random identifier, so their hashes were never issued; calls are new too. */
  predicate Enabled(s: Sessions, step: Step) {
    match step
    case Login(_, _, h) => h !in s.issued
    case Look(caller, _, _) => caller !in s.callers
    case Delete(caller) => caller in s.callers && s.callers[caller].Looked?
    case Create(caller, h) => caller in s.callers && s.callers[caller].Rotating? && h !in s.issued
    case Abandon(caller) => caller in s.callers
    case LogoutLook(caller, _) => caller !in s.callers
    case LogoutDelete(caller) => caller in s.callers && s.callers[caller].Leaving?
    case RevokeAll(_) => true
  }

  function Apply(s: Sessions, step: Step): Sessions
    requires Enabled(s, step)
  {
    match step
    case Login(userId, rememberMe, h) =>
      Issue(s, h, Token(userId, rememberMe), h).(logins := s.logins + 1)
    case Look(caller, userId, h) =>
      if h in s.tokens then s.(callers := s.callers[caller := Looked(h, userId, s.tokens[h].rememberMe)])
      else s
    case Delete(caller) =>
      var c := s.callers[caller];
      if c.token in s.tokens && s.tokens[c.token].userId == c.userId
      then s.(tokens := s.tokens - {c.token},
              callers := s.callers[caller := Rotating(c.token, c.userId, c.rememberMe)],
              consumed := s.consumed + [c.token])
      else Done(s, caller)
    case Create(caller, h) =>
      var c := s.callers[caller];
      Done(Issue(s, h, Token(c.userId, c.rememberMe), LoginOf(s, c.token)), caller)
    case Abandon(caller) =>
      Done(s, caller).(lost := s.lost + if s.callers[caller].Rotating? then 1 else 0)
    case LogoutLook(caller, h) =>
      if h in s.tokens then s.(callers := s.callers[caller := Leaving(h)]) else s
    case LogoutDelete(caller) =>
      var c := s.callers[caller];
      if c.token in s.tokens
      then Done(s.(tokens := s.tokens - {c.token}, logouts := s.logouts + 1), caller)
      else Done(s, caller)
    case RevokeAll(userId) =>
      s.(tokens := s.tokens - OwnedBy(s.tokens, userId), revoked := s.revoked + |OwnedBy(s.tokens, userId)|)
  }

  /** Calls between their delete and their create. */
  function Between(s: Sessions): set<Id> {
    set caller | caller in s.callers && s.callers[caller].Rotating?
  }

  ghost predicate TokensIssued(s: Sessions) {
    forall h | h in s.tokens ::
      && h in s.issued && h !in s.consumed
      && s.issued[h].userId == s.tokens[h].userId && s.issued[h].rememberMe == s.tokens[h].rememberMe
  }

  ghost predicate ConsumedOnce(s: Sessions) {
    && (forall h | h in s.consumed :: h in s.issued)
    && (forall a, b | 0 <= a < b < |s.consumed| :: s.consumed[a] != s.consumed[b])
  }

  /** Every token has the user and the choice of the login it descends from. */
  ghost predicate ChainsAgree(s: Sessions) {
    forall h | h in s.issued ::
      && s.issued[h].login in s.issued
      && s.issued[s.issued[h].login] == Origin(s.issued[h].login, s.issued[h].userId, s.issued[h].rememberMe)
  }

  ghost predicate CallersAgree(s: Sessions) {
    forall caller | caller in s.callers ::
      var c := s.callers[caller];
      && c.token in s.issued
      && (c.Looked? ==> c.rememberMe == s.issued[c.token].rememberMe)
      && (c.Rotating? ==> c.userId == s.issued[c.token].userId && c.rememberMe == s.issued[c.token].rememberMe)
  }

  ghost predicate Counted(s: Sessions) {
    |s.tokens.Keys| + |Between(s)| + s.logouts + s.revoked + s.lost == s.logins
  }

  ghost predicate Inv(s: Sessions) {
    TokensIssued(s) && ConsumedOnce(s) && ChainsAgree(s) && CallersAgree(s) && Counted(s)
  }

  lemma StepTokens(s: Sessions, step: Step)
    requires TokensIssued(s) && CallersAgree(s) && ConsumedOnce(s) && Enabled(s, step)
    ensures TokensIssued(Apply(s, step))
  {
  }

  lemma StepConsumes(s: Sessions, step: Step)
    requires TokensIssued(s) && ConsumedOnce(s) && Enabled(s, step)
    ensures ConsumedOnce(Apply(s, step))
  {
  }

  /** A fresh token opens a chain of its own, or continues one of the same user and `rememberMe`. */
  lemma IssueChains(s: Sessions, h: Hash, t: Token, login: Hash)
    requires ChainsAgree(s) && h !in s.issued
    requires login == h
      || (login in s.issued && s.issued[login] == Origin(login, t.userId, t.rememberMe))
    ensures ChainsAgree(Issue(s, h, t, login))
  {
  }

  lemma StepChains(s: Sessions, step: Step)
    requires ChainsAgree(s) && CallersAgree(s) && Enabled(s, step)
    ensures ChainsAgree(Apply(s, step))
  {
    if step.Login? {
      IssueChains(s, step.newToken, Token(step.userId, step.rememberMe), step.newToken);
    } else if step.Create? {
      var c := s.callers[step.caller];
      IssueChains(s, step.newToken, Token(c.userId, c.rememberMe), LoginOf(s, c.token));
    } else {
      assert Apply(s, step).issued == s.issued;
    }
  }

  lemma StepCallers(s: Sessions, step: Step)
    requires TokensIssued(s) && CallersAgree(s) && Enabled(s, step)
    ensures CallersAgree(Apply(s, step))
  {
  }

  /** A login issues one token, of its user and choice, at the head of a chain of its own. */
  lemma LoginExactly(s: Sessions, userId: Id, rememberMe: bool, h: Hash)
    requires h !in s.issued
    ensures var s' := Apply(s, Login(userId, rememberMe, h));
      && s'.tokens == s.tokens[h := Token(userId, rememberMe)]
      && s'.issued == s.issued[h := Origin(h, userId, rememberMe)] && s'.logins == s.logins + 1
  {
  }

  /** Revoking a user's sessions removes exactly that user's tokens, and counts them. */
  lemma RevokedExactly(s: Sessions, userId: Id)
    ensures var s' := Apply(s, RevokeAll(userId));
      && (forall h :: h in s'.tokens <==> h in s.tokens && s.tokens[h].userId != userId)
      && (forall h | h in s'.tokens :: s'.tokens[h] == s.tokens[h])
      && s'.revoked == s.revoked + |set h | h in s.tokens && s.tokens[h].userId == userId|
      && s'.callers == s.callers
  {
    assert OwnedBy(s.tokens, userId) == set h | h in s.tokens && s.tokens[h].userId == userId;
  }

  /** A delete that finds its token gone, or another user's, ends the call and changes no token. */
  lemma DeleteExactly(s: Sessions, caller: Id)
    requires Enabled(s, Delete(caller))
    ensures var s', c := Apply(s, Delete(caller)), s.callers[caller];
      if c.token in s.tokens && s.tokens[c.token].userId == c.userId
      then s'.tokens == s.tokens - {c.token} && caller in s'.callers && s'.callers[caller].Rotating?
      else s'.tokens == s.tokens && caller !in s'.callers
  {
  }

  /** How many live tokens a step adds or removes. */
  function TokenChange(s: Sessions, step: Step): int
    requires Enabled(s, step)
  {
    match step
    case Login(_, _, _) => 1
    case Look(_, _, _) => 0
    case Delete(caller) =>
      var c := s.callers[caller];
      if c.token in s.tokens && s.tokens[c.token].userId == c.userId then -1 else 0
    case Create(_, _) => 1
    case Abandon(_) => 0
    case LogoutLook(_, _) => 0
    case LogoutDelete(caller) => if s.callers[caller].token in s.tokens then -1 else 0
    case RevokeAll(userId) => -|OwnedBy(s.tokens, userId)|
  }

  /** How many calls a step brings into, or out of, the middle of a rotation. */
  function BetweenChange(s: Sessions, step: Step): int
    requires Enabled(s, step)
  {
    match step
    case Login(_, _, _) => 0
    case Look(_, _, _) => 0
    case Delete(caller) =>
      var c := s.callers[caller];
      if c.token in s.tokens && s.tokens[c.token].userId == c.userId then 1 else 0
    case Create(_, _) => -1
    case Abandon(caller) => if s.callers[caller].Rotating? then -1 else 0
    case LogoutLook(_, _) => 0
    case LogoutDelete(_) => 0
    case RevokeAll(_) => 0
  }

  /** The key set after a step that adds or removes one token. */
  lemma TokenKeys(s: Sessions, step: Step)
    requires Enabled(s, step) && !step.RevokeAll?
    ensures var before, after := s.tokens.Keys, Apply(s, step).tokens.Keys;
      if step.Login? || step.Create? then after == before + {step.newToken}
      else if TokenChange(s, step) == -1 then after == before - {s.callers[step.caller].token}
      else after == before
  {
  }

  lemma OneMore(a: set<Hash>, h: Hash)
    requires h !in a
    ensures |a + {h}| == |a| + 1
  {
  }

  lemma OneLess(a: set<Hash>, h: Hash)
    requires h in a
    ensures |a - {h}| == |a| - 1
  {
  }

  lemma TokensCounted(s: Sessions, step: Step)
    requires Enabled(s, step) && TokensIssued(s)
    ensures |Apply(s, step).tokens.Keys| == |s.tokens.Keys| + TokenChange(s, step)
  {
    if step.RevokeAll? {
      RevokedCounted(s, step.userId);
    } else {
      TokenKeys(s, step);
      if step.Login? || step.Create? {
        OneMore(s.tokens.Keys, step.newToken);
      } else if TokenChange(s, step) == -1 {
        OneLess(s.tokens.Keys, s.callers[step.caller].token);
      }
    }
  }

  lemma RevokedCounted(s: Sessions, userId: Id)
    ensures |Apply(s, RevokeAll(userId)).tokens.Keys| == |s.tokens.Keys| - |OwnedBy(s.tokens, userId)|
  {
    var gone := OwnedBy(s.tokens, userId);
    assert gone <= s.tokens.Keys;
    assert Apply(s, RevokeAll(userId)).tokens.Keys == s.tokens.Keys - gone;
  }

  lemma BetweenCallers(s: Sessions, step: Step)
    requires Enabled(s, step)
    ensures var before, after := Between(s), Between(Apply(s, step));
      if BetweenChange(s, step) == 1 then step.Delete? && step.caller !in before && after == before + {step.caller}
      else if BetweenChange(s, step) == -1 then
        (step.Create? || step.Abandon?) && step.caller in before && after == before - {step.caller}
      else BetweenChange(s, step) == 0 && after == before
  {
    hide OwnedBy, LoginOf;
  }

  lemma BetweenCounted(s: Sessions, step: Step)
    requires Enabled(s, step)
    ensures |Between(Apply(s, step))| == |Between(s)| + BetweenChange(s, step)
  {
    hide Between, Apply, BetweenChange;
    BetweenCallers(s, step);
  }

  lemma StepCounts(s: Sessions, step: Step)
    requires TokensIssued(s) && Counted(s) && Enabled(s, step)
    ensures Counted(Apply(s, step))
  {
    TokensCounted(s, step);
    BetweenCounted(s, step);
  }

  lemma StepInv(s: Sessions, step: Step)
    requires Inv(s) && Enabled(s, step)
    ensures Inv(Apply(s, step))
  {
    StepTokens(s, step);
    StepConsumes(s, step);
    StepChains(s, step);
    StepCallers(s, step);
    StepCounts(s, step);
  }

  // ---- runs ----

  ghost predicate IsRun(ss: seq<Sessions>, steps: seq<Step>) {
    && |ss| == |steps| + 1 && ss[0] == INITIAL
    && forall k | 0 <= k < |steps| :: Enabled(ss[k], steps[k]) && ss[k + 1] == Apply(ss[k], steps[k])
  }

  lemma {:induction false} RunInv(ss: seq<Sessions>, steps: seq<Step>, k: nat)
    requires IsRun(ss, steps) && k < |ss|
    ensures Inv(ss[k])
  {
    if k > 0 {
      RunInv(ss, steps, k - 1);
      StepInv(ss[k - 1], steps[k - 1]);
    }
  }

  /** No token is consumed by two refreshes, and a consumed token is never live again. */
  lemma TokenConsumedOnce(ss: seq<Sessions>, steps: seq<Step>, k: nat)
    requires IsRun(ss, steps) && k < |ss|
    ensures forall a, b | 0 <= a < b < |ss[k].consumed| :: ss[k].consumed[a] != ss[k].consumed[b]
    ensures forall h | h in ss[k].consumed :: h !in ss[k].tokens
  {
    RunInv(ss, steps, k);
  }

  /** Live sessions, with those in the middle of a rotation, are the logins not yet ended. */
  lemma SessionsConserved(ss: seq<Sessions>, steps: seq<Step>, k: nat)
    requires IsRun(ss, steps) && k < |ss|
    ensures |ss[k].tokens.Keys| + |Between(ss[k])|
         == ss[k].logins - ss[k].logouts - ss[k].revoked - ss[k].lost
  {
    RunInv(ss, steps, k);
  }

  /** A live token has the user and the remember-me choice of the login it descends from. */
  lemma ChainKeepsChoice(ss: seq<Sessions>, steps: seq<Step>, k: nat, h: Hash)
    requires IsRun(ss, steps) && k < |ss| && h in ss[k].tokens
    ensures h in ss[k].issued && ss[k].issued[h].login in ss[k].issued
    ensures var login := ss[k].issued[ss[k].issued[h].login];
      && login.login == ss[k].issued[h].login
      && login.userId == ss[k].tokens[h].userId && login.rememberMe == ss[k].tokens[h].rememberMe
  {
    RunInv(ss, steps, k);
  }

  // ---- the service ----

  class AuthService {
    var tokens: map<Hash, Token>

    constructor ()
      ensures tokens == map[]
    {
      tokens := map[];
    }

    method CreateRefreshToken(h: Hash, userId: Id, rememberMe: bool)
      requires h !in tokens
      modifies this
      ensures tokens == old(tokens)[h := Token(userId, rememberMe)]
    {
      tokens := tokens[h := Token(userId, rememberMe)];
    }

    /** `refreshTokens`, run without interruption. */
    method RefreshTokens(userId: Id, oldHash: Hash, newHash: Hash) returns (ok: bool)
      requires newHash !in tokens
      modifies this
      ensures ok <==> oldHash in old(tokens) && old(tokens)[oldHash].userId == userId
      ensures tokens == if ok
        then (old(tokens) - {oldHash})[newHash := old(tokens)[oldHash]] else old(tokens)
    {
      if oldHash !in tokens {
        return false;
      }
      var rememberMe := tokens[oldHash].rememberMe;
      var matching := set h | h in tokens && h == oldHash && tokens[h].userId == userId;
      assert tokens[oldHash].userId == userId ==> oldHash in matching;
      tokens := tokens - matching;
      if matching == {} {
        return false;
      }
      assert oldHash in matching && matching == {oldHash};
      CreateRefreshToken(newHash, userId, rememberMe);
      return true;
    }

    method RevokeRefreshToken(h: Hash) returns (ok: bool)
      modifies this
      ensures ok <==> h in old(tokens)
      ensures tokens == old(tokens) - {h}
    {
      if h !in tokens {
        return false;
      }
      tokens := tokens - {h};
      return true;
    }
  }

  /** The three steps of one refresh, with nothing in between, do what the call does alone. */
  lemma UninterruptedRefresh(s: Sessions, caller: Id, userId: Id, oldHash: Hash, newHash: Hash)
    requires Inv(s) && caller !in s.callers && newHash !in s.issued
    ensures var s1 := Apply(s, Look(caller, userId, oldHash));
      if oldHash !in s.tokens then s1 == s
      else
        && Enabled(s1, Delete(caller))
        && var s2 := Apply(s1, Delete(caller));
           if s.tokens[oldHash].userId != userId then s2 == s
           else
             && Enabled(s2, Create(caller, newHash))
             && Apply(s2, Create(caller, newHash)).tokens
                == (s.tokens - {oldHash})[newHash := s.tokens[oldHash]]
             && Apply(s2, Create(caller, newHash)).callers == s.callers
  {
    if oldHash in s.tokens {
      var s1 := Apply(s, Look(caller, userId, oldHash));
      assert s1.callers - {caller} == s.callers;
    }
  }

  /** A logout run alone removes its token and nothing else. */
  lemma UninterruptedLogout(s: Sessions, caller: Id, h: Hash)
    requires caller !in s.callers
    ensures var s1 := Apply(s, LogoutLook(caller, h));
      if h !in s.tokens then s1 == s
      else
        && Enabled(s1, LogoutDelete(caller))
        && Apply(s1, LogoutDelete(caller)) == s.(tokens := s.tokens - {h}, logouts := s.logouts + 1)
  {
    assert Apply(s, LogoutLook(caller, h)).callers - {caller} == s.callers;
  }
}
