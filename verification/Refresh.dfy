/**
 Token refresh under concurrent callers (crates/ta-auth-openai/src/refresh/manager.rs), as a transition
 function: callers of `ensure_fresh` and `force_refresh` take atomic steps in any order over one
 credential store, one lock per key, and the failure counters. What the store, the token endpoint and
 the clock answer is in the action; a caller can be dropped at any of its steps.
 */
module Refresh {
  import opened Prelude

  /** Stored credentials; times are seconds, `expiresIn` counts from the last issue. */
  datatype Credentials = Credentials(
    tokens: TokenSet, accountExpiresAt: Option<nat>, storedAt: nat, lastRefreshedAt: Option<nat>)

  datatype TokenSet = TokenSet(
    accessToken: string, apiAccessToken: Option<string>, refreshToken: string, expiresIn: Option<nat>)

  /** `maxTime` is the platform's last representable instant, where checked additions fail. */
  datatype Policy = Policy(window: nat, maxConsecutiveFailures: nat, maxTime: nat)

  datatype Error =
    | NoCredentials
    | NoRefreshToken
    | NetworkError
    | AuthRevoked
    | TokenExpired
    | MaxRetriesExceeded(attempts: nat)
    | BackendUnavailable
    | Dropped

  function IssuedAt(c: Credentials): nat {
    if c.lastRefreshedAt.Some? then c.lastRefreshedAt.value else c.storedAt
  }

  function ExpiresAt(p: Policy, c: Credentials): Option<nat> {
    if c.tokens.expiresIn.Some? && IssuedAt(c) + c.tokens.expiresIn.value <= p.maxTime
    then Some(IssuedAt(c) + c.tokens.expiresIn.value)
    else c.accountExpiresAt
  }

  predicate ShouldRefresh(p: Policy, c: Credentials, now: nat) {
    var expires := ExpiresAt(p, c);
    expires.None? || now + p.window > p.maxTime || expires.value <= now + p.window
  }

  /** The token a caller is handed: the platform's own one when there is one. */
  function Bearer(c: Credentials): string {
    if c.tokens.apiAccessToken.Some? then c.tokens.apiAccessToken.value else c.tokens.accessToken
  }

  /** `access_token_from_credentials`: needs an expiry in the future. */
  function TokenFrom(p: Policy, c: Credentials, now: nat): (r: Result<string, Error>)
    ensures r.Ok? ==> r.value == Bearer(c)
  {
    var expires := ExpiresAt(p, c);
    if expires.None? || expires.value <= now then Err(TokenExpired) else Ok(Bearer(c))
  }

  function Refreshed(previous: Credentials, t: TokenSet, now: nat): Credentials {
    Credentials(t, previous.accountExpiresAt, previous.storedAt, Some(now))
  }

  datatype Kind = Ensure | Force

  /** Where a caller stands; from `Locked` to `Cleared` it holds the lock. */
  datatype Pc =
    | Start
    | WantLock
    | Waiting(lock: nat)
    | Locked(lock: nat)
    | Ready(lock: nat, used: Credentials, readAt: nat)
    | InFlight(lock: nat, used: Credentials, granted: Option<TokenSet>)
    | Granted(lock: nat, used: Credentials, updated: Credentials)
    | Persisted(lock: nat, updated: Credentials)
    | Revoked(lock: nat, used: Credentials)
    | Cleared(lock: nat)
    | Returned(result: Result<string, Error>)

  datatype Caller = Caller(kind: Kind, key: string, pc: Pc)

  /** What an observer of the store and the token endpoint sees. */
  datatype Event =
    | Sent(key: string, token: string, kind: Kind, used: Credentials, readAt: nat)
    | Issued(key: string, replaced: string, issued: string)
    | IssuedLate(key: string, replaced: string, issued: string, request: nat)
    | Unusable(key: string)
    | Abandoned(key: string)
    | StoreRefused(key: string)
    | Stored(key: string, replaced: string, stored: string)
    | Deleted(key: string)
    | RefreshFailed(key: string, attempts: nat)
    | Settled(key: string)

  datatype State = State(
    store: map<string, Credentials>,
    locks: map<string, nat>,
    holders: map<nat, nat>,
    nextLock: nat,
    counts: map<string, nat>,
    callers: map<nat, Caller>,
    log: seq<Event>)

  /** What reaches a caller: the tokens that the server issued, or an error, which may hide that it did. */
  datatype Response = Received | Revocation | OtherFailure

  datatype Move =
    | Load(fails: bool, now: nat)
    | FindLock
    | Acquire
    | Reread(fails: bool, now: nat)
    | Send
    | Issue(tokens: TokenSet)
    | Respond(response: Response, now: nat)
    | Persist(fails: bool)
    | Settle
    | Drop

  datatype Action =
    | Call(caller: nat, kind: Kind, key: string)
    | Act(caller: nat, move: Move)
    | IssueLate(request: nat, tokens: TokenSet)

  predicate HoldsLock(pc: Pc) {
    pc.Locked? || pc.Ready? || pc.InFlight? || pc.Granted? || pc.Persisted? || pc.Revoked? || pc.Cleared?
  }

  function At(s: State, c: nat, pc: Pc): State
    requires c in s.callers
  {
    s.(callers := s.callers[c := s.callers[c].(pc := pc)])
  }

  /** Returning drops the lock guard, if the caller has one. */
  function Return(s: State, c: nat, result: Result<string, Error>): State
    requires c in s.callers
  {
    var pc := s.callers[c].pc;
    var left := At(s, c, Returned(result));
    if HoldsLock(pc) then left.(holders := s.holders - {pc.lock}) else left
  }

  function Observe(s: State, e: Event): State {
    s.(log := s.log + [e])
  }

  function CountOf(s: State, key: string): nat {
    if key in s.counts then s.counts[key] else 0
  }

  function Saturated(n: nat): nat {
    if n < U32_MAX then n else U32_MAX
  }

  function StepLoad(p: Policy, s: State, c: nat, fails: bool, now: nat): State
    requires c in s.callers
  {
    var key := s.callers[c].key;
    if s.callers[c].kind.Force? then At(s, c, WantLock)
    else if fails then Return(s, c, Err(BackendUnavailable))
    else if key !in s.store then Return(s, c, Err(NoCredentials))
    else if !ShouldRefresh(p, s.store[key], now) then Return(s, c, TokenFrom(p, s.store[key], now))
    else At(s, c, WantLock)
  }

  /** `refresh_lock_for`: one lock per key, made on first use. */
  function StepFindLock(s: State, c: nat): State
    requires c in s.callers
  {
    var key := s.callers[c].key;
    if key in s.locks then At(s, c, Waiting(s.locks[key]))
    else At(s, c, Waiting(s.nextLock)).(locks := s.locks[key := s.nextLock], nextLock := s.nextLock + 1)
  }

  function StepReread(p: Policy, s: State, c: nat, fails: bool, now: nat): State
    requires c in s.callers && s.callers[c].pc.Locked?
  {
    var key, lock := s.callers[c].key, s.callers[c].pc.lock;
    if fails then Return(s, c, Err(BackendUnavailable))
    else if key !in s.store then Return(s, c, Err(NoCredentials))
    else if s.callers[c].kind.Ensure? && !ShouldRefresh(p, s.store[key], now) then
      Return(s, c, TokenFrom(p, s.store[key], now))
    else if IsBlank(s.store[key].tokens.refreshToken) then Return(s, c, Err(NoRefreshToken))
    else At(s, c, Ready(lock, s.store[key], now))
  }

  function StepSend(s: State, c: nat): State
    requires c in s.callers && s.callers[c].pc.Ready?
  {
    var caller := s.callers[c];
    Observe(At(s, c, InFlight(caller.pc.lock, caller.pc.used, None)),
            Sent(caller.key, caller.pc.used.tokens.refreshToken, caller.kind, caller.pc.used, caller.pc.readAt))
  }

  /** The server answers a request by issuing tokens; the caller does not know yet. */
  function StepIssue(s: State, c: nat, tokens: TokenSet): State
    requires c in s.callers && s.callers[c].pc.InFlight?
  {
    var pc := s.callers[c].pc;
    Observe(At(s, c, pc.(granted := Some(tokens))),
            Issued(s.callers[c].key, pc.used.tokens.refreshToken, tokens.refreshToken))
  }

  /** Tokens can be received once they were issued, a revocation only if none were, any other error at any time. */
  predicate CanRespond(pc: Pc, response: Response) {
    pc.InFlight? &&
    match response
    case Received => pc.granted.Some?
    case Revocation => pc.granted.None?
    case OtherFailure => true
  }

  function StepRespond(p: Policy, s: State, c: nat, response: Response, now: nat): State
    requires c in s.callers && CanRespond(s.callers[c].pc, response)
  {
    var key, lock, used := s.callers[c].key, s.callers[c].pc.lock, s.callers[c].pc.used;
    match response
    case Received =>
      var updated := Refreshed(used, s.callers[c].pc.granted.value, now);
      if TokenFrom(p, updated, now).Err? then Return(Observe(s, Unusable(key)), c, Err(TokenExpired))
      else At(s, c, Granted(lock, used, updated))
    case Revocation => At(s, c, Revoked(lock, used))
    case OtherFailure =>
      var attempts := Saturated(CountOf(s, key) + 1);
      var failed := Observe(s.(counts := s.counts[key := attempts]), RefreshFailed(key, attempts));
      Return(failed, c, Err(if attempts >= p.maxConsecutiveFailures then MaxRetriesExceeded(attempts) else NetworkError))
  }

  function StepPersist(s: State, c: nat, fails: bool): Option<State>
    requires c in s.callers
  {
    var key := s.callers[c].key;
    match s.callers[c].pc
    case Granted(lock, used, updated) =>
      if fails then Some(Return(Observe(s, StoreRefused(key)), c, Err(BackendUnavailable)))
      else
        Some(Observe(At(s, c, Persisted(lock, updated)).(store := s.store[key := updated]),
                     Stored(key, used.tokens.refreshToken, updated.tokens.refreshToken)))
    case Revoked(lock, _) =>
      if fails then Some(Return(s, c, Err(BackendUnavailable)))
      else Some(Observe(At(s, c, Cleared(lock)).(store := s.store - {key}), Deleted(key)))
    case _ => None
  }

  /** Resetting the failure counter and returning. */
  function StepSettle(s: State, c: nat): Option<State>
    requires c in s.callers
  {
    var key := s.callers[c].key;
    var settled := Observe(s.(counts := s.counts - {key}), Settled(key));
    match s.callers[c].pc
    case Persisted(_, updated) => Some(Return(settled, c, Ok(Bearer(updated))))
    case Cleared(_) => Some(Return(settled, c, Err(AuthRevoked)))
    case _ => None
  }

  /**
   A caller can be dropped where it awaits something. Between the server's answer and the store it does not: the
   answer is checked and written, or the credentials deleted, without another await.
   */
  function StepDrop(s: State, c: nat): Option<State>
    requires c in s.callers
  {
    var pc := s.callers[c].pc;
    if pc.Returned? || pc.Granted? || pc.Revoked? then None
    else if pc.InFlight? then Some(Return(Observe(s, Abandoned(s.callers[c].key)), c, Err(Dropped)))
    else Some(Return(s, c, Err(Dropped)))
  }

  function StepAct(p: Policy, s: State, c: nat, move: Move): Option<State>
    requires c in s.callers
  {
    var pc := s.callers[c].pc;
    match move
    case Load(fails, now) => if pc.Start? then Some(StepLoad(p, s, c, fails, now)) else None
    case FindLock => if pc.WantLock? then Some(StepFindLock(s, c)) else None
    case Acquire =>
      if pc.Waiting? && pc.lock !in s.holders then
        Some(At(s, c, Locked(pc.lock)).(holders := s.holders[pc.lock := c]))
      else None
    case Reread(fails, now) => if pc.Locked? then Some(StepReread(p, s, c, fails, now)) else None
    case Send => if pc.Ready? then Some(StepSend(s, c)) else None
    case Issue(tokens) => if pc.InFlight? && pc.granted.None? then Some(StepIssue(s, c, tokens)) else None
    case Respond(response, now) => if CanRespond(pc, response) then Some(StepRespond(p, s, c, response, now)) else None
    case Persist(fails) => StepPersist(s, c, fails)
    case Settle => StepSettle(s, c)
    case Drop => StepDrop(s, c)
  }

  function Step(p: Policy, s: State, a: Action): Option<State> {
    match a
    case Call(c, kind, key) =>
      if c in s.callers then None else Some(s.(callers := s.callers[c := Caller(kind, key, Start)]))
    case Act(c, move) => if c in s.callers then StepAct(p, s, c, move) else None
    case IssueLate(q, tokens) =>
      if GivenUp(s.log, q) && Unprocessed(s.log, q) then Some(StepIssueLate(s, q, tokens)) else None
  }

  // Requests whose callers are gone.

  /** A caller of the key does something, or something is done for it. */
  predicate Concerns(e: Event, key: string) {
    e.key == key && !e.IssuedLate?
  }

  /** The first event after position `q` that concerns callers of its key. */
  function NextConcern(log: seq<Event>, q: nat): Option<Event>
    requires q < |log|
  {
    if q + 1 == |log| then None
    else
      var earlier, last := NextConcern(log[..|log| - 1], q), log[|log| - 1];
      if earlier.None? && Concerns(last, log[q].key) then Some(last) else earlier
  }

  /** The request sent at `q` was given up, by a caller that was dropped or for an error, before the server answered. */
  predicate GivenUp(log: seq<Event>, q: int) {
    && 0 <= q < |log| && log[q].Sent?
    && var next := NextConcern(log, q);
    && next.Some? && (next.value.Abandoned? || next.value.RefreshFailed?)
  }

  /** The server has not processed the request sent at `q` late. */
  predicate Unprocessed(log: seq<Event>, q: nat) {
    log == [] || (Unprocessed(log[..|log| - 1], q) && !(log[|log| - 1].IssuedLate? && log[|log| - 1].request == q))
  }

  /** The server processes such a request all the same: nobody receives the tokens. */
  function StepIssueLate(s: State, q: nat, tokens: TokenSet): State
    requires GivenUp(s.log, q)
  {
    Observe(s, IssuedLate(s.log[q].key, s.log[q].token, tokens.refreshToken, q))
  }

  predicate Initial(s: State) {
    s.locks == map[] && s.holders == map[] && s.counts == map[] && s.callers == map[] && s.log == []
  }

  function Run(p: Policy, initial: State, actions: seq<Action>): Option<State> {
    if actions == [] then Some(initial)
    else
      match Run(p, initial, actions[..|actions| - 1])
      case None => None
      case Some(before) => Step(p, before, actions[|actions| - 1])
  }

  ghost predicate Reachable(p: Policy, initial: State, s: State) {
    Initial(initial) && exists actions :: Run(p, initial, actions) == Some(s)
  }

  // The invariant: a lock belongs to one key, and its holder alone touches that key's credentials.

  predicate LocksDistinct(s: State) {
    && (forall k | k in s.locks :: s.locks[k] < s.nextLock)
    && (forall k, l | k in s.locks && l in s.locks && k != l :: s.locks[k] != s.locks[l])
  }

  /** There was a moment at which the credentials gave a token out. */
  ghost predicate Usable(p: Policy, c: Credentials) {
    exists now :: TokenFrom(p, c, now) == Ok(Bearer(c))
  }

  ghost predicate CallerOk(p: Policy, s: State, c: nat) {
    c in s.callers && SectionOk(p, s, c, s.callers[c], s.callers[c].pc)
  }

  ghost predicate SectionOk(p: Policy, s: State, c: nat, caller: Caller, pc: Pc) {
    && (pc.Waiting? || HoldsLock(pc) ==> caller.key in s.locks && s.locks[caller.key] == pc.lock)
    && (HoldsLock(pc) ==> pc.lock in s.holders && s.holders[pc.lock] == c)
    && (pc.Ready? || pc.InFlight? || pc.Granted? || pc.Revoked? ==>
          caller.key in s.store && s.store[caller.key] == pc.used)
    && (pc.Persisted? ==> caller.key in s.store && s.store[caller.key] == pc.updated)
    && (pc.Granted? ==> Usable(p, pc.updated))
    && (pc.Persisted? ==> Usable(p, pc.updated))
    && (pc.Ready? && caller.kind.Ensure? ==> ShouldRefresh(p, pc.used, pc.readAt))
  }

  ghost predicate Inv(p: Policy, s: State) {
    LocksDistinct(s) && forall c | c in s.callers :: CallerOk(p, s, c)
  }

  /** Two callers that hold a lock for the same key are the same caller. */
  lemma OneHolder(p: Policy, s: State, a: nat, b: nat)
    requires Inv(p, s) && a in s.callers && b in s.callers
    requires HoldsLock(s.callers[a].pc) && HoldsLock(s.callers[b].pc)
    requires s.callers[a].key == s.callers[b].key
    ensures a == b
  {
    assert CallerOk(p, s, a) && CallerOk(p, s, b);
  }

  /** Holders of different keys hold different locks. */
  lemma OtherLock(p: Policy, s: State, a: nat, b: nat)
    requires Inv(p, s) && a in s.callers && b in s.callers && a != b
    requires HoldsLock(s.callers[a].pc) && HoldsLock(s.callers[b].pc)
    ensures s.callers[a].pc.lock != s.callers[b].pc.lock && s.callers[a].key != s.callers[b].key
  {
    assert CallerOk(p, s, a) && CallerOk(p, s, b);
  }

  /** What one step of caller `c` may touch: its own entry, locks it makes or holds, its key's credentials. */
  ghost predicate LocalStep(s: State, after: State, c: nat)
    requires c in s.callers
  {
    var caller := s.callers[c];
    && after.callers.Keys == s.callers.Keys
    && (forall d | d in s.callers && d != c :: after.callers[d] == s.callers[d])
    && after.callers[c].kind == caller.kind && after.callers[c].key == caller.key
    && LocksStep(s, after, caller.key)
    && (if HoldsLock(caller.pc) then
          && (after.holders == s.holders || after.holders == s.holders - {caller.pc.lock})
          && after.store - {caller.key} == s.store - {caller.key}
        else
          && (forall l | l in s.holders :: l in after.holders && after.holders[l] == s.holders[l])
          && after.store == s.store)
  }

  ghost predicate LocksStep(s: State, after: State, key: string) {
    || (after.locks == s.locks && after.nextLock == s.nextLock)
    || (key !in s.locks && after.locks == s.locks[key := s.nextLock] && after.nextLock == s.nextLock + 1)
  }

  /** What one step adds to the log, and what it does to the failure counters. */
  ghost predicate LogStep(s: State, after: State) {
    || (after.log == s.log && after.counts == s.counts)
    || (|after.log| == |s.log| + 1 && after.log[..|s.log|] == s.log && Counts(s, after, after.log[|s.log|]))
  }

  ghost predicate Counts(s: State, after: State, e: Event) {
    match e
    case RefreshFailed(key, attempts) =>
      && attempts == Saturated(CountOf(s, key) + 1) && after.counts == s.counts[key := attempts]
    case Settled(key) => after.counts == s.counts - {key}
    case _ => after.counts == s.counts
  }

  /** The parts of the state that `LocalStep` speaks of. */
  predicate SameCore(s: State, t: State) {
    s.callers == t.callers && s.locks == t.locks && s.nextLock == t.nextLock && s.holders == t.holders && s.store == t.store
  }

  lemma LocalInCore(s: State, s2: State, after: State, after2: State, c: nat)
    requires c in s.callers && LocalStep(s, after, c) && SameCore(s, s2) && SameCore(after, after2)
    ensures LocalStep(s2, after2, c)
  {
  }

  lemma AtIsLocal(s: State, c: nat, pc: Pc)
    requires c in s.callers
    ensures LocalStep(s, At(s, c, pc), c)
    ensures At(s, c, pc).log == s.log && At(s, c, pc).counts == s.counts
  {
  }

  lemma ReturnIsLocal(s: State, c: nat, result: Result<string, Error>)
    requires c in s.callers
    ensures LocalStep(s, Return(s, c, result), c)
    ensures Return(s, c, result).log == s.log && Return(s, c, result).counts == s.counts
  {
  }

  lemma FindLockIsLocal(s: State, c: nat)
    requires c in s.callers
    ensures LocalStep(s, StepFindLock(s, c), c) && LogStep(s, StepFindLock(s, c))
  {
  }

  lemma AcquireIsLocal(p: Policy, s: State, c: nat)
    requires c in s.callers && StepAct(p, s, c, Acquire).Some?
    ensures LocalStep(s, StepAct(p, s, c, Acquire).value, c) && LogStep(s, StepAct(p, s, c, Acquire).value)
  {
  }

  lemma SendIsLocal(s: State, c: nat)
    requires c in s.callers && s.callers[c].pc.Ready?
    ensures LocalStep(s, StepSend(s, c), c) && LogStep(s, StepSend(s, c))
  {
    hide LocalStep, At;
    var caller := s.callers[c];
    var sent := At(s, c, InFlight(caller.pc.lock, caller.pc.used, None));
    AtIsLocal(s, c, InFlight(caller.pc.lock, caller.pc.used, None));
    LocalInCore(s, s, sent, StepSend(s, c), c);
  }

  lemma IssueIsLocal(s: State, c: nat, tokens: TokenSet)
    requires c in s.callers && s.callers[c].pc.InFlight?
    ensures LocalStep(s, StepIssue(s, c, tokens), c) && LogStep(s, StepIssue(s, c, tokens))
  {
    hide LocalStep, At;
    var pc := s.callers[c].pc.(granted := Some(tokens));
    AtIsLocal(s, c, pc);
    LocalInCore(s, s, At(s, c, pc), StepIssue(s, c, tokens), c);
  }

  lemma DropIsLocal(s: State, c: nat)
    requires c in s.callers && StepDrop(s, c).Some?
    ensures LocalStep(s, StepDrop(s, c).value, c) && LogStep(s, StepDrop(s, c).value)
  {
    hide LocalStep, Return;
    var observed := Observe(s, Abandoned(s.callers[c].key));
    ReturnIsLocal(s, c, Err(Dropped));
    ReturnIsLocal(observed, c, Err(Dropped));
    LocalInCore(observed, s, Return(observed, c, Err(Dropped)), Return(observed, c, Err(Dropped)), c);
  }

  lemma QuietMovesAreLocal(p: Policy, s: State, c: nat, move: Move)
    requires c in s.callers && StepAct(p, s, c, move).Some?
    requires move.Load? || move.Reread?
    ensures LocalStep(s, StepAct(p, s, c, move).value, c) && LogStep(s, StepAct(p, s, c, move).value)
  {
    hide ShouldRefresh, TokenFrom, IsBlank, StepFindLock, StepSend, StepRespond, StepPersist, StepSettle, Return, At,
         LocalStep, Counts;
    forall result { ReturnIsLocal(s, c, result); }
    forall pc { AtIsLocal(s, c, pc); }
  }

  lemma RespondIsLocal(p: Policy, s: State, c: nat, response: Response, now: nat)
    requires c in s.callers && CanRespond(s.callers[c].pc, response)
    ensures LocalStep(s, StepRespond(p, s, c, response, now), c) && LogStep(s, StepRespond(p, s, c, response, now))
  {
    hide TokenFrom, Refreshed, Saturated, CountOf, LocalStep, At, Return;
    var key, pc, after := s.callers[c].key, s.callers[c].pc, StepRespond(p, s, c, response, now);
    match response {
      case Received =>
        AtIsLocal(s, c, Granted(pc.lock, pc.used, Refreshed(pc.used, pc.granted.value, now)));
        var answered := Observe(s, Unusable(key));
        ReturnIsLocal(answered, c, Err(TokenExpired));
        LocalInCore(answered, s, Return(answered, c, Err(TokenExpired)), Return(answered, c, Err(TokenExpired)), c);
      case Revocation => AtIsLocal(s, c, Revoked(pc.lock, pc.used));
      case OtherFailure =>
        var attempts := Saturated(CountOf(s, key) + 1);
        var failed := Observe(s.(counts := s.counts[key := attempts]), RefreshFailed(key, attempts));
        forall result { ReturnIsLocal(failed, c, result); }
        LocalInCore(failed, s, after, after, c);
    }
  }

  lemma PersistIsLocal(s: State, c: nat, fails: bool)
    requires c in s.callers && StepPersist(s, c, fails).Some?
    ensures LocalStep(s, StepPersist(s, c, fails).value, c) && LogStep(s, StepPersist(s, c, fails).value)
  {
    hide Return, At, LocalStep;
    var key, pc := s.callers[c].key, s.callers[c].pc;
    if fails {
      var refused := Observe(s, StoreRefused(key));
      ReturnIsLocal(s, c, Err(BackendUnavailable));
      ReturnIsLocal(refused, c, Err(BackendUnavailable));
      var after := Return(refused, c, Err(BackendUnavailable));
      LocalInCore(refused, s, after, after, c);
    } else {
      var next := if pc.Granted? then Persisted(pc.lock, pc.updated) else Cleared(pc.lock);
      AtIsLocal(s, c, next);
      StoringIsLocal(s, At(s, c, next), StepPersist(s, c, fails).value, c);
    }
  }

  lemma StoringIsLocal(s: State, after: State, stored: State, c: nat)
    requires c in s.callers && LocalStep(s, after, c) && HoldsLock(s.callers[c].pc)
    requires stored.store - {s.callers[c].key} == s.store - {s.callers[c].key}
    requires SameCore(after, stored.(store := after.store))
    ensures LocalStep(s, stored, c)
  {
  }

  lemma SettleIsLocal(s: State, c: nat)
    requires c in s.callers && StepSettle(s, c).Some?
    ensures LocalStep(s, StepSettle(s, c).value, c) && LogStep(s, StepSettle(s, c).value)
  {
    hide Bearer, Return, LocalStep;
    var settled := Observe(s.(counts := s.counts - {s.callers[c].key}), Settled(s.callers[c].key));
    forall result { ReturnIsLocal(settled, c, result); }
    LocalInCore(settled, s, StepSettle(s, c).value, StepSettle(s, c).value, c);
  }

  lemma ActIsLocal(p: Policy, s: State, c: nat, move: Move)
    requires c in s.callers && StepAct(p, s, c, move).Some?
    ensures LocalStep(s, StepAct(p, s, c, move).value, c) && LogStep(s, StepAct(p, s, c, move).value)
  {
    hide LocalStep, LogStep, StepLoad, StepFindLock, StepReread, StepSend, StepIssue, StepRespond, StepPersist, StepSettle,
         StepDrop;
    match move {
      case Respond(response, now) => RespondIsLocal(p, s, c, response, now);
      case Persist(fails) => PersistIsLocal(s, c, fails);
      case Settle => SettleIsLocal(s, c);
      case FindLock => FindLockIsLocal(s, c);
      case Acquire => AcquireIsLocal(p, s, c);
      case Send => SendIsLocal(s, c);
      case Issue(tokens) => IssueIsLocal(s, c, tokens);
      case Drop => DropIsLocal(s, c);
      case _ => QuietMovesAreLocal(p, s, c, move);
    }
  }

  /** A local step leaves every other caller's invariant intact. */
  lemma OthersStayOk(p: Policy, s: State, after: State, c: nat, d: nat)
    requires Inv(p, s) && c in s.callers && LocalStep(s, after, c) && d in s.callers && d != c
    ensures CallerOk(p, after, d)
  {
    assert CallerOk(p, s, d) && CallerOk(p, s, c);
    var key, other := s.callers[c].key, s.callers[d].key;
    if HoldsLock(s.callers[d].pc) && HoldsLock(s.callers[c].pc) {
      OtherLock(p, s, c, d);
      assert other in s.store ==> (s.store - {key})[other] == s.store[other] && other in after.store - {key};
    }
  }

  lemma LockMovesKeepSelf(p: Policy, s: State, after: State, c: nat, move: Move)
    requires c in s.callers && CallerOk(p, s, c) && StepAct(p, s, c, move) == Some(after)
    requires move.FindLock? || move.Acquire? || move.Send? || move.Issue?
    ensures CallerOk(p, after, c)
  {
    hide ShouldRefresh, StepLoad, StepReread, StepRespond, StepPersist, StepSettle, StepDrop;
  }

  lemma ReturnedIsOk(p: Policy, s: State, c: nat, result: Result<string, Error>)
    requires c in s.callers
    ensures CallerOk(p, Return(s, c, result), c)
  {
  }

  lemma ReadsKeepSelf(p: Policy, s: State, after: State, c: nat, move: Move)
    requires c in s.callers && CallerOk(p, s, c) && StepAct(p, s, c, move) == Some(after)
    requires move.Load? || move.Reread? || move.Drop?
    ensures CallerOk(p, after, c)
  {
    hide ShouldRefresh, TokenFrom, IsBlank, StepFindLock, StepSend, StepIssue, StepRespond, StepPersist, StepSettle, Return;
    forall t: State, result | c in t.callers { ReturnedIsOk(p, t, c, result); }
  }

  lemma AnswersKeepSelf(p: Policy, s: State, after: State, c: nat, move: Move)
    requires c in s.callers && CallerOk(p, s, c) && StepAct(p, s, c, move) == Some(after)
    requires move.Respond?
    ensures CallerOk(p, after, c)
  {
    hide ShouldRefresh, TokenFrom, Refreshed, Bearer, Saturated, CountOf, Return;
    if move.response.Received? {
      var updated := Refreshed(s.callers[c].pc.used, s.callers[c].pc.granted.value, move.now);
      if TokenFrom(p, updated, move.now).Ok? {
        assert TokenFrom(p, updated, move.now) == Ok(Bearer(updated));
        assert Usable(p, updated);
      }
    }
    forall t: State, result | c in t.callers { ReturnedIsOk(p, t, c, result); }
  }

  lemma StoresKeepSelf(p: Policy, s: State, after: State, c: nat, move: Move)
    requires c in s.callers && CallerOk(p, s, c) && StepAct(p, s, c, move) == Some(after)
    requires move.Persist? || move.Settle?
    ensures CallerOk(p, after, c)
  {
    hide ShouldRefresh, Bearer, Return;
    forall t: State, result | c in t.callers { ReturnedIsOk(p, t, c, result); }
  }

  lemma SelfStaysOk(p: Policy, s: State, after: State, c: nat, move: Move)
    requires Inv(p, s) && c in s.callers && StepAct(p, s, c, move) == Some(after)
    ensures CallerOk(p, after, c)
  {
    hide CallerOk, StepAct;
    match move {
      case FindLock | Acquire | Send | Issue(_) => LockMovesKeepSelf(p, s, after, c, move);
      case Respond(_, _) => AnswersKeepSelf(p, s, after, c, move);
      case Persist(_) | Settle => StoresKeepSelf(p, s, after, c, move);
      case _ => ReadsKeepSelf(p, s, after, c, move);
    }
  }

  lemma LocksStayDistinct(s: State, after: State, key: string)
    requires LocksDistinct(s) && LocksStep(s, after, key)
    ensures LocksDistinct(after)
  {
  }

  lemma StepKeepsInv(p: Policy, s: State, a: Action)
    requires Inv(p, s) && Step(p, s, a).Some?
    ensures Inv(p, Step(p, s, a).value)
  {
    hide StepAct;
    var after := Step(p, s, a).value;
    match a {
      case Call(c, _, _) =>
        forall d | d in after.callers ensures CallerOk(p, after, d) {
          if d != c { assert CallerOk(p, s, d); }
        }
      case Act(c, move) =>
        ActIsLocal(p, s, c, move);
        SelfStaysOk(p, s, after, c, move);
        LocksStayDistinct(s, after, s.callers[c].key);
        forall d | d in after.callers ensures CallerOk(p, after, d) {
          if d != c { OthersStayOk(p, s, after, c, d); }
        }
      case IssueLate(_, _) =>
        forall d | d in after.callers ensures CallerOk(p, after, d) { assert CallerOk(p, s, d); }
    }
  }

  lemma {:induction false} RunKeepsInv(p: Policy, initial: State, actions: seq<Action>)
    requires Initial(initial) && Run(p, initial, actions).Some?
    ensures Inv(p, Run(p, initial, actions).value)
  {
    if actions != [] {
      var front := actions[..|actions| - 1];
      RunKeepsInv(p, initial, front);
      StepKeepsInv(p, Run(p, initial, front).value, actions[|actions| - 1]);
    }
  }

  /** Single flight: at no point of any interleaving are two refreshes of one key in flight. */
  lemma SingleFlight(p: Policy, initial: State, s: State, a: nat, b: nat)
    requires Reachable(p, initial, s) && a in s.callers && b in s.callers
    requires s.callers[a].pc.InFlight? && s.callers[b].pc.InFlight? && s.callers[a].key == s.callers[b].key
    ensures a == b
  {
    var actions :| Run(p, initial, actions) == Some(s);
    RunKeepsInv(p, initial, actions);
    OneHolder(p, s, a, b);
  }

  /** The token is what the store holds for the key, and there was a moment at which it had not expired. */
  ghost predicate Current(p: Policy, s: State, key: string, token: string) {
    key in s.store && token == Bearer(s.store[key]) && Usable(p, s.store[key])
  }

  lemma LoadReturnsCurrent(p: Policy, s: State, c: nat, after: State, fails: bool, now: nat, token: string)
    requires c in s.callers && after == StepLoad(p, s, c, fails, now)
    requires c in after.callers && after.callers[c].pc == Returned(Ok(token))
    ensures after.store == s.store && Current(p, s, s.callers[c].key, token)
  {
    hide ShouldRefresh, Bearer, TokenFrom;
    assert TokenFrom(p, s.store[s.callers[c].key], now) == Ok(token);
  }

  lemma RereadReturnsCurrent(p: Policy, s: State, c: nat, after: State, fails: bool, now: nat, token: string)
    requires c in s.callers && s.callers[c].pc.Locked? && after == StepReread(p, s, c, fails, now)
    requires c in after.callers && after.callers[c].pc == Returned(Ok(token))
    ensures after.store == s.store && Current(p, s, s.callers[c].key, token)
  {
    hide ShouldRefresh, Bearer, TokenFrom, IsBlank;
    assert TokenFrom(p, s.store[s.callers[c].key], now) == Ok(token);
  }

  lemma SettleReturnsCurrent(p: Policy, s: State, c: nat, after: State, token: string)
    requires CallerOk(p, s, c) && StepSettle(s, c) == Some(after)
    requires c in after.callers && after.callers[c].pc == Returned(Ok(token))
    ensures after.store == s.store && Current(p, s, s.callers[c].key, token)
  {
    hide ShouldRefresh, Bearer, Usable;
  }

  lemma OthersReturnNoToken(p: Policy, s: State, c: nat, move: Move, after: State, token: string)
    requires c in s.callers && StepAct(p, s, c, move) == Some(after)
    requires c in after.callers && after.callers[c].pc == Returned(Ok(token))
    ensures move.Load? || move.Reread? || move.Settle?
  {
    hide ShouldRefresh, Bearer, TokenFrom, Refreshed, IsBlank, StepLoad, StepReread, StepSettle, Saturated, CountOf;
  }

  /**
   Whatever path a caller takes, the token it is handed is the one the store holds for its key at that
   moment, and that token had not expired when it was looked at or granted.
   */
  lemma ReturnedTokenIsStored(p: Policy, initial: State, s: State, c: nat, move: Move, after: State, token: string)
    requires Reachable(p, initial, s) && c in s.callers && StepAct(p, s, c, move) == Some(after)
    requires c in after.callers && after.callers[c].pc == Returned(Ok(token))
    ensures after.store == s.store && Current(p, s, s.callers[c].key, token)
  {
    var actions :| Run(p, initial, actions) == Some(s);
    RunKeepsInv(p, initial, actions);
    AllOk(p, s, c);
    OthersReturnNoToken(p, s, c, move, after, token);
    hide Run, Reachable, Inv, CallerOk, Current, StepLoad, StepReread, StepSettle;
    match move {
      case Load(fails, now) => LoadReturnsCurrent(p, s, c, after, fails, now, token);
      case Reread(fails, now) => RereadReturnsCurrent(p, s, c, after, fails, now, token);
      case Settle => SettleReturnsCurrent(p, s, c, after, token);
      case _ =>
    }
  }

  // Which tokens are presented.

  /** The refresh token that the store holds for a key, read off what was stored and deleted. */
  function CurrentToken(initial: State, log: seq<Event>, key: string): Option<string> {
    if log == [] then if key in initial.store then Some(initial.store[key].tokens.refreshToken) else None
    else
      match log[|log| - 1]
      case Stored(k, _, token) => if k == key then Some(token) else CurrentToken(initial, log[..|log| - 1], key)
      case Deleted(k) => if k == key then None else CurrentToken(initial, log[..|log| - 1], key)
      case _ => CurrentToken(initial, log[..|log| - 1], key)
  }

  /** Token `t` of `key` was replaced by another stored one before position `n`, and not stored again. */
  predicate Superseded(log: seq<Event>, n: nat, key: string, t: string)
    requires n <= |log|
  {
    exists j :: 0 <= j < n && Replaces(log[j], key, t) && forall k | j < k < n :: !Stores(log[k], key, t)
  }

  predicate Replaces(e: Event, key: string, t: string) {
    e.Stored? && e.key == key && e.replaced == t && e.stored != t
  }

  predicate Stores(e: Event, key: string, t: string) {
    e.Stored? && e.key == key && e.stored == t
  }

  ghost predicate StoreMatchesLog(initial: State, s: State) {
    forall key :: CurrentToken(initial, s.log, key) ==
      if key in s.store then Some(s.store[key].tokens.refreshToken) else None
  }

  /** Every request presented the token that was current when it was sent, for a reason that held. */
  ghost predicate SendsJustified(p: Policy, initial: State, log: seq<Event>) {
    forall i | 0 <= i < |log| && log[i].Sent? :: SendJustified(p, initial, log, i)
  }

  ghost predicate SendJustified(p: Policy, initial: State, log: seq<Event>, i: nat)
    requires i < |log| && log[i].Sent?
  {
    && CurrentToken(initial, log[..i], log[i].key) == Some(log[i].token)
    && log[i].used.tokens.refreshToken == log[i].token
    && (log[i].kind.Ensure? ==> ShouldRefresh(p, log[i].used, log[i].readAt))
  }

  lemma CurrentSnoc(initial: State, log: seq<Event>, e: Event, key: string)
    ensures CurrentToken(initial, log + [e], key) ==
            match e
            case Stored(k, _, token) => if k == key then Some(token) else CurrentToken(initial, log, key)
            case Deleted(k) => if k == key then None else CurrentToken(initial, log, key)
            case _ => CurrentToken(initial, log, key)
  {
    assert (log + [e])[..|log|] == log;
  }

  lemma JustifiedSnoc(p: Policy, initial: State, log: seq<Event>, e: Event)
    requires SendsJustified(p, initial, log)
    requires e.Sent? ==>
               && CurrentToken(initial, log, e.key) == Some(e.token) && e.used.tokens.refreshToken == e.token
               && (e.kind.Ensure? ==> ShouldRefresh(p, e.used, e.readAt))
    ensures SendsJustified(p, initial, log + [e])
  {
    var longer := log + [e];
    forall i | 0 <= i < |longer| && longer[i].Sent? ensures SendJustified(p, initial, longer, i) {
      if i < |log| {
        assert longer[..i] == log[..i] && SendJustified(p, initial, log, i);
      } else {
        assert longer[..i] == log;
      }
    }
  }

  /** How a caller's step can extend the log. */
  ghost predicate Logs(p: Policy, s: State, after: State) {
    || (after.log == s.log && after.store == s.store)
    || (exists e :: after.log == s.log + [e] && Explains(p, s, after, e))
  }

  lemma LogsOne(p: Policy, s: State, after: State, e: Event)
    requires after.log == s.log + [e] && Explains(p, s, after, e)
    ensures Logs(p, s, after)
  {
  }

  lemma SendLogs(p: Policy, s: State, c: nat)
    requires CallerOk(p, s, c) && s.callers[c].pc.Ready?
    ensures Logs(p, s, StepSend(s, c))
  {
    hide ShouldRefresh, Logs, Usable;
    var caller := s.callers[c];
    LogsOne(p, s, StepSend(s, c),
            Sent(caller.key, caller.pc.used.tokens.refreshToken, caller.kind, caller.pc.used, caller.pc.readAt));
  }

  lemma IssueLogs(p: Policy, s: State, c: nat, tokens: TokenSet)
    requires c in s.callers && s.callers[c].pc.InFlight?
    ensures Logs(p, s, StepIssue(s, c, tokens))
  {
    hide Logs;
    LogsOne(p, s, StepIssue(s, c, tokens),
            Issued(s.callers[c].key, s.callers[c].pc.used.tokens.refreshToken, tokens.refreshToken));
  }

  lemma DropLogs(p: Policy, s: State, c: nat)
    requires c in s.callers && StepDrop(s, c).Some?
    ensures Logs(p, s, StepDrop(s, c).value)
  {
    hide Logs;
    var after := StepDrop(s, c).value;
    if s.callers[c].pc.InFlight? { LogsOne(p, s, after, Abandoned(s.callers[c].key)); } else { QuietLogs(p, s, after); }
  }

  lemma RespondLogs(p: Policy, s: State, c: nat, response: Response, now: nat)
    requires c in s.callers && CanRespond(s.callers[c].pc, response)
    ensures Logs(p, s, StepRespond(p, s, c, response, now))
  {
    hide TokenFrom, Refreshed, Logs, Saturated, CountOf;
    var caller, after := s.callers[c], StepRespond(p, s, c, response, now);
    if after.log == s.log {
      QuietLogs(p, s, after);
    } else if response.Received? {
      LogsOne(p, s, after, Unusable(caller.key));
    } else {
      LogsOne(p, s, after, RefreshFailed(caller.key, Saturated(CountOf(s, caller.key) + 1)));
    }
  }

  lemma QuietLogs(p: Policy, s: State, after: State)
    requires after.log == s.log && after.store == s.store
    ensures Logs(p, s, after)
  {
  }

  lemma PersistLogs(p: Policy, s: State, c: nat, fails: bool)
    requires CallerOk(p, s, c) && StepPersist(s, c, fails).Some?
    ensures Logs(p, s, StepPersist(s, c, fails).value)
  {
    hide ShouldRefresh, Logs, Usable;
    var caller, after := s.callers[c], StepPersist(s, c, fails).value;
    if fails && caller.pc.Granted? {
      LogsOne(p, s, after, StoreRefused(caller.key));
    } else if fails {
      QuietLogs(p, s, after);
    } else if caller.pc.Granted? {
      var e := Stored(caller.key, caller.pc.used.tokens.refreshToken, caller.pc.updated.tokens.refreshToken);
      assert after.store == s.store[caller.key := caller.pc.updated];
      LogsOne(p, s, after, e);
    } else {
      LogsOne(p, s, after, Deleted(caller.key));
    }
  }

  lemma SettleLogs(p: Policy, s: State, c: nat)
    requires c in s.callers && StepSettle(s, c).Some?
    ensures Logs(p, s, StepSettle(s, c).value)
  {
    hide Logs, Bearer;
    LogsOne(p, s, StepSettle(s, c).value, Settled(s.callers[c].key));
  }

  lemma OthersLog(p: Policy, s: State, c: nat, move: Move)
    requires c in s.callers && StepAct(p, s, c, move).Some?
    requires move.Load? || move.FindLock? || move.Acquire? || move.Reread?
    ensures Logs(p, s, StepAct(p, s, c, move).value)
  {
    hide Logs, ShouldRefresh, TokenFrom, IsBlank, StepSend, StepIssue, StepRespond, StepPersist, StepSettle, StepDrop;
    QuietLogs(p, s, StepAct(p, s, c, move).value);
  }

  lemma ActLogs(p: Policy, s: State, c: nat, move: Move)
    requires Inv(p, s) && c in s.callers && StepAct(p, s, c, move).Some?
    ensures Logs(p, s, StepAct(p, s, c, move).value)
  {
    AllOk(p, s, c);
    hide Inv, CallerOk, Logs, StepLoad, StepFindLock, StepReread, StepSend, StepIssue, StepRespond, StepPersist, StepSettle,
         StepDrop;
    match move {
      case Send => SendLogs(p, s, c);
      case Issue(tokens) => IssueLogs(p, s, c, tokens);
      case Drop => DropLogs(p, s, c);
      case Respond(response, now) => RespondLogs(p, s, c, response, now);
      case Persist(fails) => PersistLogs(p, s, c, fails);
      case Settle => SettleLogs(p, s, c);
      case _ => OthersLog(p, s, c, move);
    }
  }

  lemma LateLogs(p: Policy, s: State, q: nat, tokens: TokenSet)
    requires GivenUp(s.log, q)
    ensures Logs(p, s, StepIssueLate(s, q, tokens)) && LogStep(s, StepIssueLate(s, q, tokens))
  {
    hide Logs, NextConcern;
    LogsOne(p, s, StepIssueLate(s, q, tokens), IssuedLate(s.log[q].key, s.log[q].token, tokens.refreshToken, q));
  }

  lemma AllOk(p: Policy, s: State, c: nat)
    requires Inv(p, s) && c in s.callers
    ensures CallerOk(p, s, c)
  {
  }

  /** What an event says about the step that emitted it. */
  ghost predicate Explains(p: Policy, s: State, after: State, e: Event) {
    match e
    case Sent(key, token, kind, used, readAt) =>
      && after.store == s.store && key in s.store
      && s.store[key].tokens.refreshToken == token && used.tokens.refreshToken == token
      && (kind.Ensure? ==> ShouldRefresh(p, used, readAt))
    case Stored(key, replaced, stored) =>
      && key in s.store && s.store[key].tokens.refreshToken == replaced
      && (exists updated :: after.store == s.store[key := updated] && updated.tokens.refreshToken == stored)
    case Deleted(key) => after.store == s.store - {key}
    case _ => after.store == s.store
  }

  ghost predicate LogInv(p: Policy, initial: State, s: State) {
    StoreMatchesLog(initial, s) && SendsJustified(p, initial, s.log) && StoresReplaceCurrent(initial, s.log)
  }

  /** Every stored token replaced the one that was current. */
  ghost predicate StoresReplaceCurrent(initial: State, log: seq<Event>) {
    forall i | 0 <= i < |log| && log[i].Stored? :: CurrentToken(initial, log[..i], log[i].key) == Some(log[i].replaced)
  }

  lemma ReplaceSnoc(initial: State, log: seq<Event>, e: Event)
    requires StoresReplaceCurrent(initial, log)
    requires e.Stored? ==> CurrentToken(initial, log, e.key) == Some(e.replaced)
    ensures StoresReplaceCurrent(initial, log + [e])
  {
    var longer := log + [e];
    forall i | 0 <= i < |longer| && longer[i].Stored?
      ensures CurrentToken(initial, longer[..i], longer[i].key) == Some(longer[i].replaced)
    {
      if i < |log| { assert longer[..i] == log[..i] && log[i] == longer[i]; } else { assert longer[..i] == log; }
    }
  }

  lemma StepKeepsLog(p: Policy, initial: State, s: State, a: Action)
    requires LogInv(p, initial, s) && Inv(p, s) && Step(p, s, a).Some?
    ensures LogInv(p, initial, Step(p, s, a).value)
  {
    hide StepAct, Inv, SendsJustified, StoresReplaceCurrent, CurrentToken, ShouldRefresh, GivenUp, Unprocessed;
    var after := Step(p, s, a).value;
    if !a.Call? {
      if a.Act? { ActLogs(p, s, a.caller, a.move); } else { LateLogs(p, s, a.request, a.tokens); }
      if e :| after.log == s.log + [e] && Explains(p, s, after, e) {
        forall key
          ensures CurrentToken(initial, after.log, key) ==
                  if key in after.store then Some(after.store[key].tokens.refreshToken) else None
        {
          CurrentSnoc(initial, s.log, e, key);
        }
        JustifiedSnoc(p, initial, s.log, e);
        ReplaceSnoc(initial, s.log, e);
      }
    }
  }

  lemma {:induction false} RunKeepsLog(p: Policy, initial: State, actions: seq<Action>)
    requires Initial(initial) && Run(p, initial, actions).Some?
    ensures LogInv(p, initial, Run(p, initial, actions).value)
  {
    if actions != [] {
      var front := actions[..|actions| - 1];
      RunKeepsLog(p, initial, front);
      RunKeepsInv(p, initial, front);
      StepKeepsLog(p, initial, Run(p, initial, front).value, actions[|actions| - 1]);
    }
  }

  /** A token replaced by another and not stored again is not the current one. */
  lemma {:induction false} SupersededIsNotCurrent(initial: State, log: seq<Event>, n: nat, key: string, t: string)
    requires n <= |log| && Superseded(log, n, key, t)
    ensures CurrentToken(initial, log[..n], key) != Some(t)
    decreases n
  {
    var j :| 0 <= j < n && Replaces(log[j], key, t) && forall k | j < k < n :: !Stores(log[k], key, t);
    assert log[..n][..n - 1] == log[..n - 1];
    if j < n - 1 {
      assert Superseded(log, n - 1, key, t);
      SupersededIsNotCurrent(initial, log, n - 1, key, t);
    }
  }

  /**
   Refresh-token discipline of RFC 6749, section 6, over every interleaving: each request presents the
   token that is current in the store at that moment, so never one that a stored token superseded, and
   `ensure_fresh` only sends when its read under the lock finds the token expiring within the window.
   */
  lemma NoSupersededTokenIsPresented(p: Policy, initial: State, s: State, i: nat)
    requires Reachable(p, initial, s) && i < |s.log| && s.log[i].Sent?
    ensures CurrentToken(initial, s.log[..i], s.log[i].key) == Some(s.log[i].token)
    ensures !Superseded(s.log, i, s.log[i].key, s.log[i].token)
    ensures s.log[i].kind.Ensure? ==> ShouldRefresh(p, s.log[i].used, s.log[i].readAt)
  {
    var actions :| Run(p, initial, actions) == Some(s);
    RunKeepsLog(p, initial, actions);
    assert SendJustified(p, initial, s.log, i);
    if Superseded(s.log, i, s.log[i].key, s.log[i].token) {
      SupersededIsNotCurrent(initial, s.log, i, s.log[i].key, s.log[i].token);
    }
  }

  // Failure counting.

  /** The failures of a key since its counter was last reset. */
  function Failures(log: seq<Event>, key: string): nat {
    if log == [] then 0
    else
      match log[|log| - 1]
      case RefreshFailed(k, _) => Failures(log[..|log| - 1], key) + if k == key then 1 else 0
      case Settled(k) => if k == key then 0 else Failures(log[..|log| - 1], key)
      case _ => Failures(log[..|log| - 1], key)
  }

  ghost predicate CountsMatch(s: State) {
    && (forall key :: CountOf(s, key) == Saturated(Failures(s.log, key)))
    && (forall i | 0 <= i < |s.log| && s.log[i].RefreshFailed? ::
          s.log[i].attempts == Saturated(Failures(s.log[..i + 1], s.log[i].key)))
  }

  lemma FailuresSnoc(log: seq<Event>, e: Event, key: string)
    ensures Failures(log + [e], key) ==
            match e
            case RefreshFailed(k, _) => Failures(log, key) + if k == key then 1 else 0
            case Settled(k) => if k == key then 0 else Failures(log, key)
            case _ => Failures(log, key)
  {
    assert (log + [e])[..|log|] == log;
  }

  lemma StepKeepsCounts(p: Policy, s: State, a: Action)
    requires CountsMatch(s) && Step(p, s, a).Some?
    ensures CountsMatch(Step(p, s, a).value)
  {
    hide StepAct;
    var after := Step(p, s, a).value;
    if !a.Call? {
      if a.Act? { ActIsLocal(p, s, a.caller, a.move); } else { LateLogs(p, s, a.request, a.tokens); }
      if after.log != s.log {
        var e := after.log[|s.log|];
        assert after.log == s.log + [e];
        forall key ensures CountOf(after, key) == Saturated(Failures(after.log, key)) {
          FailuresSnoc(s.log, e, key);
        }
        forall i | 0 <= i < |after.log| && after.log[i].RefreshFailed?
          ensures after.log[i].attempts == Saturated(Failures(after.log[..i + 1], after.log[i].key))
        {
          if i < |s.log| {
            assert after.log[..i + 1] == s.log[..i + 1] && after.log[i] == s.log[i];
          } else {
            assert after.log[..i + 1] == after.log;
            FailuresSnoc(s.log, e, e.key);
          }
        }
      } else {
        assert forall key :: CountOf(after, key) == CountOf(s, key);
      }
    } else {
      assert forall key :: CountOf(after, key) == CountOf(s, key);
    }
  }

  /** In every interleaving, the attempts a failure reports are the key's failures since its last reset. */
  lemma {:induction false} FailuresAreCounted(p: Policy, initial: State, actions: seq<Action>)
    requires Initial(initial) && Run(p, initial, actions).Some?
    ensures CountsMatch(Run(p, initial, actions).value)
  {
    if actions != [] {
      var front := actions[..|actions| - 1];
      FailuresAreCounted(p, initial, front);
      StepKeepsCounts(p, Run(p, initial, front).value, actions[|actions| - 1]);
    }
  }
}
