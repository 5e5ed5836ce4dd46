/**
 What a call decides and returns (crates/ta-auth-openai/src/refresh/manager.rs), said in the fields of the
 credentials it finds: when it refreshes, which token it hands out, what it stores, and which error it reports.
 */
module RefreshCalls {
  import opened Prelude
  import opened Refresh
  import opened RefreshGrants

  /** The token that credentials give out: the platform's own one when there is one. */
  predicate GivesOut(c: Credentials, token: string) {
    c.tokens.apiAccessToken == Some(token) || (c.tokens.apiAccessToken == None && c.tokens.accessToken == token)
  }

  /**
   Credentials expire this long after they were last refreshed or, never refreshed, stored; without a lifetime that
   the clock can represent, when the account does.
   */
  predicate ExpireAt(p: Policy, c: Credentials, time: nat) {
    match c.tokens.expiresIn
    case Some(lifetime) =>
      var issued := match c.lastRefreshedAt { case Some(refreshed) => refreshed case None => c.storedAt };
      if issued + lifetime <= p.maxTime then time == issued + lifetime else c.accountExpiresAt == Some(time)
    case None => c.accountExpiresAt == Some(time)
  }

  /** They last beyond the window that starts now. */
  ghost predicate Lasts(p: Policy, c: Credentials, now: nat) {
    now + p.window <= p.maxTime && exists time: nat :: ExpireAt(p, c, time) && time > now + p.window
  }

  ghost predicate Expired(p: Policy, c: Credentials, now: nat) {
    forall time: nat | ExpireAt(p, c, time) :: time <= now
  }

  lemma ExpireAtReads(p: Policy, c: Credentials)
    ensures forall time: nat :: ExpireAt(p, c, time) <==> ExpiresAt(p, c) == Some(time)
  {
  }

  lemma RefreshesUnlessItLasts(p: Policy, c: Credentials, now: nat)
    ensures ShouldRefresh(p, c, now) <==> !Lasts(p, c, now)
    ensures TokenFrom(p, c, now).Err? <==> Expired(p, c, now)
    ensures TokenFrom(p, c, now).Err? ==> TokenFrom(p, c, now).error == TokenExpired
    ensures TokenFrom(p, c, now).Ok? ==> GivesOut(c, TokenFrom(p, c, now).value)
    ensures Lasts(p, c, now) ==> TokenFrom(p, c, now).Ok?
  {
    ExpireAtReads(p, c);
    hide ExpireAt;
    if ExpiresAt(p, c).Some? { assert ExpireAt(p, c, ExpiresAt(p, c).value); }
    hide ExpiresAt;
  }

  // What a call that reads credentials does with them.

  /** The credentials a caller finds, or why it finds none. */
  function Found(s: State, key: string, fails: bool): Result<Credentials, Error> {
    if fails then Err(BackendUnavailable) else if key in s.store then Ok(s.store[key]) else Err(NoCredentials)
  }

  /**
   `ensure_fresh` reads the store twice, before it asks for the lock and under it: either time it hands out the
   stored token if that lasts beyond the window, and goes on if not. `force_refresh` reads it under the lock only,
   and goes on with whatever it finds.
   */
  lemma CallsGoOnUnlessTheTokenLasts(p: Policy, s: State, c: nat, move: Move, after: State)
    requires c in s.callers && StepAct(p, s, c, move) == Some(after) && (move.Load? || move.Reread?)
    ensures c in after.callers && after.store == s.store && after.log == s.log
    ensures var caller, now := s.callers[c], after.callers[c].pc;
            if move.Load? && caller.kind.Force? then now == WantLock
            else
              match Found(s, caller.key, move.fails) {
                case Err(e) => now == Returned(Err(e))
                case Ok(found) =>
                  if caller.kind.Ensure? && Lasts(p, found, move.now) then
                    now.Returned? && now.result.Ok? && GivesOut(found, now.result.value)
                  else if move.Load? then now == WantLock
                  else if IsBlank(found.tokens.refreshToken) then now == Returned(Err(NoRefreshToken))
                  else now == Ready(caller.pc.lock, found, move.now)
              }
  {
    var key := s.callers[c].key;
    if key in s.store { RefreshesUnlessItLasts(p, s.store[key], move.now); }
    hide Lasts, Expired, ShouldRefresh, TokenFrom, IsBlank, GivesOut;
    hide StepFindLock, StepSend, StepIssue, StepRespond, StepPersist, StepSettle, StepDrop;
    hide StepLoad, StepReread;
    if move.Load? { LoadStands(p, s, c, move.fails, move.now); } else { RereadStands(p, s, c, move.fails, move.now); }
  }

  /** A caller that goes on, or returns, stands where it is put, and nothing else has happened. */
  predicate Stands(s: State, after: State, c: nat, pc: Pc) {
    c in after.callers && after.callers[c].pc == pc && after.store == s.store && after.log == s.log
  }

  lemma Moves(s: State, c: nat, pc: Pc, result: Result<string, Error>)
    requires c in s.callers
    ensures Stands(s, At(s, c, pc), c, pc) && Stands(s, Return(s, c, result), c, Returned(result))
  {
  }

  lemma LoadStands(p: Policy, s: State, c: nat, fails: bool, now: nat)
    requires c in s.callers && s.callers[c].pc.Start?
    ensures var (caller, after) := (s.callers[c], StepLoad(p, s, c, fails, now));
            Stands(s, after, c,
               if caller.kind.Force? then WantLock
               else if Found(s, caller.key, fails).Err? then Returned(Err(Found(s, caller.key, fails).error))
               else if ShouldRefresh(p, s.store[caller.key], now) then WantLock
               else Returned(TokenFrom(p, s.store[caller.key], now)))
  {
    hide ShouldRefresh, TokenFrom, At, Return, Stands;
    var key := s.callers[c].key;
    Moves(s, c, WantLock, Err(BackendUnavailable));
    Moves(s, c, WantLock, Err(NoCredentials));
    if key in s.store { Moves(s, c, WantLock, TokenFrom(p, s.store[key], now)); }
  }

  lemma RereadStands(p: Policy, s: State, c: nat, fails: bool, now: nat)
    requires c in s.callers && s.callers[c].pc.Locked?
    ensures var (caller, after) := (s.callers[c], StepReread(p, s, c, fails, now));
            Stands(s, after, c,
               if Found(s, caller.key, fails).Err? then Returned(Err(Found(s, caller.key, fails).error))
               else if caller.kind.Ensure? && !ShouldRefresh(p, s.store[caller.key], now) then
                 Returned(TokenFrom(p, s.store[caller.key], now))
               else if IsBlank(s.store[caller.key].tokens.refreshToken) then Returned(Err(NoRefreshToken))
               else Ready(caller.pc.lock, s.store[caller.key], now))
  {
    hide ShouldRefresh, TokenFrom, IsBlank, At, Return, Stands;
    var key, lock := s.callers[c].key, s.callers[c].pc.lock;
    Moves(s, c, WantLock, Err(BackendUnavailable));
    Moves(s, c, WantLock, Err(NoCredentials));
    Moves(s, c, WantLock, Err(NoRefreshToken));
    if key in s.store { Moves(s, c, Ready(lock, s.store[key], now), TokenFrom(p, s.store[key], now)); }
  }

  /** Over every run: an `ensure_fresh` that returns a token at one of its reads hands out one that lasts. */
  lemma EnsuredTokensLast(p: Policy, initial: State, s: State, c: nat, move: Move, after: State, token: string)
    requires Reachable(p, initial, s) && c in s.callers && StepAct(p, s, c, move) == Some(after)
    requires move.Load? || move.Reread?
    requires c in after.callers && after.callers[c].pc == Returned(Ok(token))
    ensures var key := s.callers[c].key;
            s.callers[c].kind.Ensure? && key in s.store && Lasts(p, s.store[key], move.now) && GivesOut(s.store[key], token)
  {
    CallsGoOnUnlessTheTokenLasts(p, s, c, move, after);
    hide StepAct, Lasts, GivesOut, IsBlank, Reachable;
  }

  /** Over every run: a request of `ensure_fresh` is only sent for a token that its read under the lock found not to last. */
  lemma RequestsAreDue(p: Policy, initial: State, s: State, i: nat)
    requires Reachable(p, initial, s) && i < |s.log| && s.log[i].Sent? && s.log[i].kind.Ensure?
    ensures !Lasts(p, s.log[i].used, s.log[i].readAt) && s.log[i].used.tokens.refreshToken == s.log[i].token
  {
    var actions :| Run(p, initial, actions) == Some(s);
    RunKeepsLog(p, initial, actions);
    RefreshesUnlessItLasts(p, s.log[i].used, s.log[i].readAt);
    hide Run, Reachable, Lasts, ShouldRefresh, CurrentToken;
    assert SendJustified(p, initial, s.log, i);
  }

  /** Over every run: whichever way a token is returned, the stored credentials give it out, and had not expired. */
  lemma ReturnedTokensAreGivenOut(p: Policy, initial: State, s: State, c: nat, move: Move, after: State, token: string)
    requires Reachable(p, initial, s) && c in s.callers && StepAct(p, s, c, move) == Some(after)
    requires c in after.callers && after.callers[c].pc == Returned(Ok(token))
    ensures var key := s.callers[c].key;
            && after.store == s.store && key in s.store && GivesOut(s.store[key], token)
            && exists now: nat :: !Expired(p, s.store[key], now)
  {
    ReturnedTokenIsStored(p, initial, s, c, move, after, token);
    hide StepAct, Reachable;
    var stored := s.store[s.callers[c].key];
    var now: nat :| TokenFrom(p, stored, now) == Ok(Bearer(stored));
    RefreshesUnlessItLasts(p, stored, now);
    assert !Expired(p, stored, now);
  }

  // What the end of an exchange does.

  /** The credentials that a received response makes: its tokens, refreshed now, of the same account. */
  predicate Renews(c: Credentials, used: Credentials, tokens: TokenSet, now: nat) {
    c.tokens == tokens && c.lastRefreshedAt == Some(now) && c.storedAt == used.storedAt
    && c.accountExpiresAt == used.accountExpiresAt
  }

  /**
   A received response whose tokens have not expired goes on to be stored; any other is an error, and stores
   nothing.
   */
  lemma ResponsesRenew(p: Policy, s: State, c: nat, now: nat)
    requires c in s.callers && CanRespond(s.callers[c].pc, Received)
    ensures var (pc, after) := (s.callers[c].pc, StepRespond(p, s, c, Received, now));
            && c in after.callers && after.store == s.store
            && match after.callers[c].pc {
                 case Granted(lock, used, updated) =>
                   && lock == pc.lock && used == pc.used
                   && Renews(updated, used, pc.granted.value, now) && !Expired(p, updated, now)
                 case Returned(r) =>
                   && r == Err(TokenExpired)
                   && forall updated | Renews(updated, pc.used, pc.granted.value, now) :: Expired(p, updated, now)
                 case _ => false
               }
  {
    var pc := s.callers[c].pc;
    var updated := Refreshed(pc.used, pc.granted.value, now);
    RefreshesUnlessItLasts(p, updated, now);
    hide Expired, TokenFrom, ShouldRefresh;
    forall other | Renews(other, pc.used, pc.granted.value, now) ensures other == updated {}
  }

  /** Any other error is counted, and reported as such until there have been too many in a row. */
  lemma FailuresAreReported(p: Policy, s: State, c: nat, now: nat)
    requires c in s.callers && CanRespond(s.callers[c].pc, OtherFailure)
    ensures var (key, after) := (s.callers[c].key, StepRespond(p, s, c, OtherFailure, now));
            var attempts := if CountOf(s, key) + 1 <= 0xFFFF_FFFF then CountOf(s, key) + 1 else 0xFFFF_FFFF;
            && after.store == s.store && CountOf(after, key) == attempts && c in after.callers
            && after.callers[c].pc ==
               Returned(Err(if attempts >= p.maxConsecutiveFailures then MaxRetriesExceeded(attempts) else NetworkError))
  {
  }

  /** What is stored or deleted once the server has decided, and what the call then returns. */
  lemma DecisionsAreStored(p: Policy, s: State, c: nat, fails: bool)
    requires CallerOk(p, s, c) && StepPersist(s, c, fails).Some?
    ensures var (caller, after) := (s.callers[c], StepPersist(s, c, fails).value);
            && c in after.callers
            && (fails ==> after.store == s.store && after.callers[c].pc == Returned(Err(BackendUnavailable)))
            && (!fails ==> match caller.pc {
                  case Granted(lock, _, updated) =>
                    after.store == s.store[caller.key := updated] && after.callers[c].pc == Persisted(lock, updated)
                  case Revoked(lock, _) =>
                    after.store == s.store - {caller.key} && after.callers[c].pc == Cleared(lock)
                  case _ => false
                })
  {
    hide ShouldRefresh, Usable;
  }

  lemma CallsReturnAtLast(p: Policy, s: State, c: nat)
    requires c in s.callers && StepSettle(s, c).Some?
    ensures var (caller, after) := (s.callers[c], StepSettle(s, c).value);
            && c in after.callers && after.store == s.store && CountOf(after, caller.key) == 0
            && match caller.pc {
                 case Persisted(_, updated) =>
                   var pc := after.callers[c].pc; pc.Returned? && pc.result.Ok? && GivesOut(updated, pc.result.value)
                 case _ => caller.pc.Cleared? && after.callers[c].pc == Returned(Err(AuthRevoked))
               }
  {
  }
}
