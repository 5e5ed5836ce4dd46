/**
 What becomes of a refresh token that the server issues: section 6 of RFC 6749 has the client discard the one
 it replaces. Read off the log of every run of the token manager, it is kept exactly when it is stored.
 */
module RefreshGrants {
  import opened Prelude
  import opened Refresh

  // The fate of the last issued token of a key, read off a log.

  datatype Fate =
    | NoneIssued
    | Awaited(replaced: string, issued: string)
    | Decided(replaced: string, issued: string, outcome: Event)

  /** The first event of its key after a token was issued decides about that token. */
  function NextFate(fate: Fate, e: Event, key: string): Fate {
    if !Concerns(e, key) then fate
    else if e.Issued? then Awaited(e.replaced, e.issued)
    else if fate.Awaited? then Decided(fate.replaced, fate.issued, e)
    else fate
  }

  function FateOf(log: seq<Event>, key: string): Fate {
    if log == [] then NoneIssued else NextFate(FateOf(log[..|log| - 1], key), log[|log| - 1], key)
  }

  lemma FateSnoc(log: seq<Event>, e: Event, key: string)
    ensures FateOf(log + [e], key) == NextFate(FateOf(log, key), e, key)
  {
    assert (log + [e])[..|log|] == log;
  }

  /** Nothing was issued for the key between the two positions. */
  predicate LastIssue(log: seq<Event>, i: int, j: int, key: string) {
    && 0 <= i < j <= |log| && log[i].Issued? && log[i].key == key
    && forall k | i < k < j :: !(log[k].Issued? && log[k].key == key)
  }

  /** Event `m` is the first that concerns callers of the key after position `i`. */
  predicate FirstAfter(log: seq<Event>, i: int, m: int, key: string) {
    0 <= i < m < |log| && Concerns(log[m], key) && forall k | i < k < m :: !Concerns(log[k], key)
  }

  lemma {:induction false} FateFromPositions(log: seq<Event>, i: int, j: int, key: string)
    requires LastIssue(log, i, j, key)
    ensures var fate := FateOf(log[..j], key);
            && fate != NoneIssued && fate.replaced == log[i].replaced && fate.issued == log[i].issued
            && (fate.Awaited? ==> forall k | i < k < j :: !Concerns(log[k], key))
            && (fate.Decided? ==> exists m :: m < j && FirstAfter(log, i, m, key) && fate.outcome == log[m])
    decreases j
  {
    assert log[..j][..j - 1] == log[..j - 1];
    if j > i + 1 {
      FateFromPositions(log, i, j - 1, key);
      var before, e := FateOf(log[..j - 1], key), log[j - 1];
      if before.Awaited? && Concerns(e, key) { assert FirstAfter(log, i, j - 1, key); }
    }
  }

  // What a step does to the token that awaits its fate.

  /** The token a caller presented and the one it was issued for it, until the caller is done with them. */
  function Grant(pc: Pc): Option<(string, string)> {
    match pc
    case InFlight(_, used, Some(tokens)) => Some((used.tokens.refreshToken, tokens.refreshToken))
    case Granted(_, used, updated) => Some((used.tokens.refreshToken, updated.tokens.refreshToken))
    case _ => None
  }

  function TokenAt(s: State, key: string): Option<string> {
    if key in s.store then Some(s.store[key].tokens.refreshToken) else None
  }

  /** How the calls that a token was issued to can end. */
  predicate IsOutcome(e: Event) {
    e.Stored? || e.StoreRefused? || e.Unusable? || e.Abandoned? || e.RefreshFailed?
  }

  ghost predicate GrantStep(s: State, after: State, c: nat) {
    && c in s.callers && c in after.callers
    && var (key, before, now) := (s.callers[c].key, Grant(s.callers[c].pc), Grant(after.callers[c].pc));
    && (after.log == s.log ==> now == before && TokenAt(after, key) == TokenAt(s, key))
    && (after.log != s.log ==>
          && |after.log| == |s.log| + 1 && after.log[..|s.log|] == s.log && HoldsLock(s.callers[c].pc)
          && EventStep(before, now, TokenAt(s, key), TokenAt(after, key), key, after.log[|s.log|]))
  }

  predicate EventStep(before: Option<(string, string)>, now: Option<(string, string)>,
                      token: Option<string>, tokenNow: Option<string>, key: string, e: Event)
  {
    && Concerns(e, key)
    && (if e.Issued? then before == None && now == Some((e.replaced, e.issued)) && tokenNow == token
        else
          && now == None && (e.Sent? ==> before == None && token == Some(e.token))
          && (before == None ==> tokenNow == token || tokenNow == None)
          && (before.Some? ==> IsOutcome(e) && tokenNow == Some(if e.Stored? then before.value.1 else before.value.0)))
  }

  lemma EventIsGrantStep(s: State, after: State, c: nat, e: Event)
    requires c in s.callers && c in after.callers && HoldsLock(s.callers[c].pc) && after.log == s.log + [e]
    requires var key := s.callers[c].key;
             EventStep(Grant(s.callers[c].pc), Grant(after.callers[c].pc), TokenAt(s, key), TokenAt(after, key), key, e)
    ensures GrantStep(s, after, c)
  {
  }

  lemma QuietIsGrantStep(s: State, after: State, c: nat)
    requires c in s.callers && c in after.callers && after.log == s.log
    requires Grant(after.callers[c].pc) == Grant(s.callers[c].pc)
    requires TokenAt(after, s.callers[c].key) == TokenAt(s, s.callers[c].key)
    ensures GrantStep(s, after, c)
  {
  }

  lemma LoadGrants(p: Policy, s: State, c: nat, fails: bool, now: nat)
    requires c in s.callers && s.callers[c].pc.Start?
    ensures GrantStep(s, StepLoad(p, s, c, fails, now), c)
  {
    hide ShouldRefresh, TokenFrom, GrantStep;
    QuietIsGrantStep(s, StepLoad(p, s, c, fails, now), c);
  }

  lemma RereadGrants(p: Policy, s: State, c: nat, fails: bool, now: nat)
    requires c in s.callers && s.callers[c].pc.Locked?
    ensures GrantStep(s, StepReread(p, s, c, fails, now), c)
  {
    hide ShouldRefresh, TokenFrom, IsBlank, GrantStep;
    QuietIsGrantStep(s, StepReread(p, s, c, fails, now), c);
  }

  lemma LockGrants(p: Policy, s: State, c: nat, move: Move, after: State)
    requires c in s.callers && StepAct(p, s, c, move) == Some(after) && (move.FindLock? || move.Acquire?)
    ensures GrantStep(s, after, c)
  {
    hide StepLoad, StepReread, StepSend, StepIssue, StepRespond, StepPersist, StepSettle, StepDrop, GrantStep;
    QuietIsGrantStep(s, after, c);
  }

  lemma SendGrants(p: Policy, s: State, c: nat)
    requires CallerOk(p, s, c) && s.callers[c].pc.Ready?
    ensures GrantStep(s, StepSend(s, c), c)
  {
    hide GrantStep, ShouldRefresh, Usable;
    var caller, after := s.callers[c], StepSend(s, c);
    EventIsGrantStep(s, after, c,
                     Sent(caller.key, caller.pc.used.tokens.refreshToken, caller.kind, caller.pc.used, caller.pc.readAt));
  }

  lemma IssueGrants(s: State, c: nat, tokens: TokenSet)
    requires c in s.callers && s.callers[c].pc.InFlight? && s.callers[c].pc.granted.None?
    ensures GrantStep(s, StepIssue(s, c, tokens), c)
  {
    hide GrantStep;
    var caller := s.callers[c];
    EventIsGrantStep(s, StepIssue(s, c, tokens), c,
                     Issued(caller.key, caller.pc.used.tokens.refreshToken, tokens.refreshToken));
  }

  lemma RespondGrants(p: Policy, s: State, c: nat, response: Response, now: nat)
    requires CallerOk(p, s, c) && CanRespond(s.callers[c].pc, response)
    ensures GrantStep(s, StepRespond(p, s, c, response, now), c)
  {
    hide ShouldRefresh, TokenFrom, Usable, Saturated, CountOf, GrantStep;
    var key, after := s.callers[c].key, StepRespond(p, s, c, response, now);
    match response {
      case Received =>
        if after.log == s.log { QuietIsGrantStep(s, after, c); } else { EventIsGrantStep(s, after, c, Unusable(key)); }
      case Revocation => QuietIsGrantStep(s, after, c);
      case OtherFailure => EventIsGrantStep(s, after, c, RefreshFailed(key, Saturated(CountOf(s, key) + 1)));
    }
  }

  lemma PersistGrants(p: Policy, s: State, c: nat, fails: bool)
    requires CallerOk(p, s, c) && StepPersist(s, c, fails).Some?
    ensures GrantStep(s, StepPersist(s, c, fails).value, c)
  {
    hide ShouldRefresh, Usable, GrantStep;
    var caller, after := s.callers[c], StepPersist(s, c, fails).value;
    if caller.pc.Granted? {
      EventIsGrantStep(s, after, c,
                       if fails then StoreRefused(caller.key)
                       else Stored(caller.key, caller.pc.used.tokens.refreshToken, caller.pc.updated.tokens.refreshToken));
    } else if fails {
      QuietIsGrantStep(s, after, c);
    } else {
      EventIsGrantStep(s, after, c, Deleted(caller.key));
    }
  }

  lemma LeavingGrants(p: Policy, s: State, c: nat, move: Move, after: State)
    requires CallerOk(p, s, c) && StepAct(p, s, c, move) == Some(after) && (move.Settle? || move.Drop?)
    ensures GrantStep(s, after, c)
  {
    hide ShouldRefresh, Usable, Bearer, GrantStep;
    var caller := s.callers[c];
    if move.Settle? {
      EventIsGrantStep(s, after, c, Settled(caller.key));
    } else if caller.pc.InFlight? {
      EventIsGrantStep(s, after, c, Abandoned(caller.key));
    } else {
      QuietIsGrantStep(s, after, c);
    }
  }

  lemma ActGrants(p: Policy, s: State, c: nat, move: Move, after: State)
    requires CallerOk(p, s, c) && StepAct(p, s, c, move) == Some(after)
    ensures GrantStep(s, after, c)
  {
    assert c in s.callers;
    hide CallerOk, GrantStep, StepLoad, StepFindLock, StepReread, StepSend, StepIssue, StepRespond, StepPersist, StepSettle,
         StepDrop;
    match move {
      case Load(fails, now) => LoadGrants(p, s, c, fails, now);
      case Reread(fails, now) => RereadGrants(p, s, c, fails, now);
      case Send => SendGrants(p, s, c);
      case Issue(tokens) => IssueGrants(s, c, tokens);
      case Respond(response, now) => RespondGrants(p, s, c, response, now);
      case Persist(fails) => PersistGrants(p, s, c, fails);
      case Settle | Drop => LeavingGrants(p, s, c, move, after);
      case _ => LockGrants(p, s, c, move, after);
    }
  }

  // The invariant: an issued token awaits its fate exactly while some caller has it in hand.

  ghost predicate Awaits(s: State, c: nat, key: string, grant: (string, string)) {
    c in s.callers && s.callers[c].key == key && Grant(s.callers[c].pc) == Some(grant)
  }

  ghost predicate FateOk(s: State, key: string) {
    match FateOf(s.log, key)
    case NoneIssued => true
    case Awaited(replaced, issued) => exists c :: Awaits(s, c, key, (replaced, issued))
    case Decided(replaced, issued, outcome) =>
      && IsOutcome(outcome)
      && (TokenAt(s, key) == None || TokenAt(s, key) == Some(if outcome.Stored? then issued else replaced))
  }

  ghost predicate HandsOk(s: State) {
    forall c, key, grant | Awaits(s, c, key, grant) :: FateOf(s.log, key) == Awaited(grant.0, grant.1)
  }

  /** A request presents the issued token if that was stored, and otherwise the replaced one. */
  predicate SentOk(fate: Fate, token: string) {
    match fate
    case NoneIssued => true
    case Awaited(_, _) => false
    case Decided(replaced, issued, outcome) => IsOutcome(outcome) && token == if outcome.Stored? then issued else replaced
  }

  predicate SendsOk(log: seq<Event>) {
    forall j | 0 <= j < |log| && log[j].Sent? :: SentOk(FateOf(log[..j], log[j].key), log[j].token)
  }

  lemma SendsSnoc(log: seq<Event>, e: Event)
    requires SendsOk(log) && (e.Sent? ==> SentOk(FateOf(log, e.key), e.token))
    ensures SendsOk(log + [e])
  {
    hide SentOk, FateOf;
    var longer := log + [e];
    forall j | 0 <= j < |longer| && longer[j].Sent? ensures SentOk(FateOf(longer[..j], longer[j].key), longer[j].token) {
      if j < |log| { assert longer[..j] == log[..j] && longer[j] == log[j]; } else { assert longer[..j] == log; }
    }
  }

  ghost predicate FatesOk(s: State) {
    (forall key :: FateOk(s, key)) && HandsOk(s)
  }

  lemma GrantHoldsLock(pc: Pc)
    ensures Grant(pc).Some? ==> HoldsLock(pc)
  {
  }

  /** While a caller holds a key's lock, only it can have an issued token of that key in hand. */
  lemma OnlyHolderAwaits(p: Policy, s: State, c: nat, d: nat, grant: (string, string))
    requires Inv(p, s) && c in s.callers && HoldsLock(s.callers[c].pc) && Awaits(s, d, s.callers[c].key, grant)
    ensures d == c
  {
    GrantHoldsLock(s.callers[d].pc);
    OneHolder(p, s, c, d);
  }

  /** Nothing changes for another key. */
  lemma OtherKeysFate(s: State, after: State, c: nat, key: string)
    requires FateOk(s, key) && c in s.callers && LocalStep(s, after, c) && GrantStep(s, after, c) && key != s.callers[c].key
    ensures FateOf(after.log, key) == FateOf(s.log, key) && FateOk(after, key)
  {
    hide Grant, IsOutcome;
    if after.log != s.log {
      assert after.log == s.log + [after.log[|s.log|]];
      FateSnoc(s.log, after.log[|s.log|], key);
    }
    OtherTokenStays(s, after, c, key);
    match FateOf(s.log, key) {
      case Awaited(replaced, issued) =>
        var d :| Awaits(s, d, key, (replaced, issued));
        assert Awaits(after, d, key, (replaced, issued));
      case _ =>
    }
  }

  lemma OtherTokenStays(s: State, after: State, c: nat, key: string)
    requires c in s.callers && LocalStep(s, after, c) && key != s.callers[c].key
    ensures TokenAt(after, key) == TokenAt(s, key)
  {
    var mine := s.callers[c].key;
    assert key in s.store ==> key in s.store - {mine} && (s.store - {mine})[key] == s.store[key];
    assert key in after.store ==> key in after.store - {mine} && (after.store - {mine})[key] == after.store[key];
  }

  /** A step without an event: the caller has in hand what it had. */
  lemma QuietFate(s: State, after: State, c: nat)
    requires c in s.callers && FateOk(s, s.callers[c].key) && LocalStep(s, after, c) && GrantStep(s, after, c)
    requires after.log == s.log
    ensures FateOk(after, s.callers[c].key)
  {
    hide Grant, IsOutcome, TokenAt;
    var key := s.callers[c].key;
    match FateOf(s.log, key) {
      case Awaited(replaced, issued) =>
        var d :| Awaits(s, d, key, (replaced, issued));
        assert Awaits(after, d, key, (replaced, issued));
      case _ =>
    }
  }

  /** A step with an event: it issues a token, decides about the one in hand, or neither. */
  lemma EventFate(p: Policy, s: State, after: State, c: nat)
    requires Inv(p, s) && FatesOk(s) && c in s.callers && LocalStep(s, after, c) && GrantStep(s, after, c)
    requires after.log != s.log
    ensures FateOk(after, s.callers[c].key)
    ensures FateOf(after.log, s.callers[c].key)
         == NextFate(FateOf(s.log, s.callers[c].key), after.log[|s.log|], s.callers[c].key)
  {
    hide Grant, IsOutcome, TokenAt, Inv;
    var key, e := s.callers[c].key, after.log[|s.log|];
    assert after.log == s.log + [e] && FateOk(s, key);
    FateSnoc(s.log, e, key);
    var before, now := Grant(s.callers[c].pc), Grant(after.callers[c].pc);
    if e.Issued? {
      assert Awaits(after, c, key, (e.replaced, e.issued));
    } else if before.Some? {
      assert Awaits(s, c, key, before.value);
    } else if FateOf(s.log, key).Awaited? {
      var fate := FateOf(s.log, key);
      var d :| Awaits(s, d, key, (fate.replaced, fate.issued));
      OnlyHolderAwaits(p, s, c, d, (fate.replaced, fate.issued));
    }
  }

  lemma SendStep(p: Policy, s: State, after: State, c: nat)
    requires Inv(p, s) && FatesOk(s) && c in s.callers && LocalStep(s, after, c) && GrantStep(s, after, c)
    requires SendsOk(s.log)
    ensures SendsOk(after.log)
  {
    hide Grant, IsOutcome, Inv, SendsOk;
    if after.log != s.log {
      var key, e := s.callers[c].key, after.log[|s.log|];
      assert after.log == s.log + [e] && FateOk(s, key);
      if e.Sent? && FateOf(s.log, key).Awaited? {
        var fate := FateOf(s.log, key);
        var d :| Awaits(s, d, key, (fate.replaced, fate.issued));
        OnlyHolderAwaits(p, s, c, d, (fate.replaced, fate.issued));
      }
      SendsSnoc(s.log, e);
    }
  }

  lemma HandsStep(p: Policy, s: State, after: State, c: nat)
    requires Inv(p, s) && FatesOk(s) && c in s.callers && LocalStep(s, after, c) && GrantStep(s, after, c)
    ensures HandsOk(after)
  {
    forall d, key, grant | Awaits(after, d, key, grant) ensures FateOf(after.log, key) == Awaited(grant.0, grant.1) {
      if key != s.callers[c].key {
        assert FateOk(s, key) && Awaits(s, d, key, grant);
        OtherKeysFate(s, after, c, key);
      } else {
        HandStep(p, s, after, c, d, grant);
      }
    }
  }

  lemma HandStep(p: Policy, s: State, after: State, c: nat, d: nat, grant: (string, string))
    requires Inv(p, s) && FatesOk(s) && c in s.callers && LocalStep(s, after, c) && GrantStep(s, after, c)
    requires Awaits(after, d, s.callers[c].key, grant)
    ensures FateOf(after.log, s.callers[c].key) == Awaited(grant.0, grant.1)
  {
    hide Grant, IsOutcome, TokenAt, Inv;
    var key := s.callers[c].key;
    if after.log == s.log {
      assert Awaits(s, d, key, grant);
    } else {
      EventFate(p, s, after, c);
      if d != c {
        assert Awaits(s, d, key, grant);
        OnlyHolderAwaits(p, s, c, d, grant);
      }
    }
  }

  lemma StepKeepsFates(p: Policy, s: State, a: Action)
    requires Inv(p, s) && FatesOk(s) && SendsOk(s.log) && Step(p, s, a).Some?
    ensures FatesOk(Step(p, s, a).value) && SendsOk(Step(p, s, a).value.log)
  {
    var after := Step(p, s, a).value;
    match a {
      case Call(c, kind, key) => CallKeepsFates(s, after, c);
      case Act(c, move) =>
        AllOk(p, s, c);
        ActIsLocal(p, s, c, move);
        ActGrants(p, s, c, move, after);
        hide StepAct, Inv, CallerOk, LocalStep, GrantStep, FateOk, SendsOk;
        SendStep(p, s, after, c);
        HandsStep(p, s, after, c);
        forall key ensures FateOk(after, key) {
          if key != s.callers[c].key { OtherKeysFate(s, after, c, key); }
          else if after.log == s.log { QuietFate(s, after, c); }
          else { EventFate(p, s, after, c); }
        }
      case IssueLate(q, tokens) =>
        LateKeepsFates(s, after, IssuedLate(s.log[q].key, s.log[q].token, tokens.refreshToken, q));
    }
  }

  /** A token that is issued late is in nobody's hand and decides about none. */
  lemma LateKeepsFates(s: State, after: State, e: Event)
    requires FatesOk(s) && SendsOk(s.log) && e.IssuedLate?
    requires after.callers == s.callers && after.store == s.store && after.log == s.log + [e]
    ensures FatesOk(after) && SendsOk(after.log)
  {
    hide IsOutcome, Grant, SendsOk;
    SendsSnoc(s.log, e);
    forall key ensures FateOf(after.log, key) == FateOf(s.log, key) { FateSnoc(s.log, e, key); }
    hide FateOf;
    forall key ensures FateOk(after, key) {
      assert FateOk(s, key);
      match FateOf(s.log, key) {
        case Awaited(replaced, issued) =>
          var d :| Awaits(s, d, key, (replaced, issued));
          assert Awaits(after, d, key, (replaced, issued));
        case _ =>
      }
    }
    forall d, key, grant | Awaits(after, d, key, grant) ensures FateOf(after.log, key) == Awaited(grant.0, grant.1) {
      assert Awaits(s, d, key, grant);
    }
  }

  lemma CallKeepsFates(s: State, after: State, c: nat)
    requires FatesOk(s) && c !in s.callers && after.log == s.log && after.store == s.store
    requires exists kind, key :: after.callers == s.callers[c := Caller(kind, key, Start)]
    ensures FatesOk(after)
  {
    hide IsOutcome;
    forall key ensures FateOk(after, key) {
      assert FateOk(s, key);
      match FateOf(s.log, key) {
        case Awaited(replaced, issued) =>
          var d :| Awaits(s, d, key, (replaced, issued));
          assert Awaits(after, d, key, (replaced, issued));
        case _ =>
      }
    }
    forall d, key, grant | Awaits(after, d, key, grant) ensures FateOf(after.log, key) == Awaited(grant.0, grant.1) {
      assert Awaits(s, d, key, grant);
    }
  }

  lemma {:induction false} RunKeepsFates(p: Policy, initial: State, actions: seq<Action>)
    requires Initial(initial) && Run(p, initial, actions).Some?
    ensures FatesOk(Run(p, initial, actions).value) && SendsOk(Run(p, initial, actions).value.log)
  {
    if actions != [] {
      var front := actions[..|actions| - 1];
      RunKeepsFates(p, initial, front);
      RunKeepsInv(p, initial, front);
      StepKeepsFates(p, Run(p, initial, front).value, actions[|actions| - 1]);
    }
  }

  /**
   Over every interleaving, let `i` be the last time before a request that the server issued a token for the
   request's key to a caller still waiting for it. The first event after `i` that concerns callers of the key
   decides: the request presents the issued token if that event is its storing, and otherwise the one the server
   replaced. The other ways to decide are a response without a usable expiry, a store that refuses, and an answer
   that never arrived, since the caller was dropped or the exchange failed.
   */
  lemma {:induction false} ReplacedTokenReturnsExactlyWhenNotStored(p: Policy, initial: State, s: State, i: nat, j: nat)
    requires Reachable(p, initial, s) && j < |s.log| && s.log[j].Sent? && LastIssue(s.log, i, j, s.log[j].key)
    ensures exists m ::
              && m < j && FirstAfter(s.log, i, m, s.log[j].key) && IsOutcome(s.log[m])
              && s.log[j].token == if s.log[m].Stored? then s.log[i].issued else s.log[i].replaced
    ensures s.log[i].issued != s.log[i].replaced ==>
              (s.log[j].token == s.log[i].replaced <==>
               exists m :: m < j && FirstAfter(s.log, i, m, s.log[j].key) && !s.log[m].Stored?)
  {
    var actions :| Run(p, initial, actions) == Some(s);
    RunKeepsFates(p, initial, actions);
    hide Run, Reachable, FatesOk, IsOutcome, FateOf;
    var key := s.log[j].key;
    assert SentOk(FateOf(s.log[..j], key), s.log[j].token);
    FateFromPositions(s.log, i, j, key);
    var m :| m < j && FirstAfter(s.log, i, m, key) && FateOf(s.log[..j], key).outcome == s.log[m];
    forall n | n < j && FirstAfter(s.log, i, n, key) ensures n == m {
      FirstAfterIsOne(s.log, i, m, n, key);
    }
  }

  lemma FirstAfterIsOne(log: seq<Event>, i: int, m: int, n: int, key: string)
    requires FirstAfter(log, i, m, key) && FirstAfter(log, i, n, key)
    ensures m == n
  {
  }

  // What a response must carry, and two runs that lose a token.

  /** A received response leaves the caller a token to hand out: an expiry in the future. */
  predicate ResponseUsable(p: Policy, used: Credentials, tokens: TokenSet, now: nat) {
    if tokens.expiresIn.Some? && now + tokens.expiresIn.value <= p.maxTime then tokens.expiresIn.value > 0
    else used.accountExpiresAt.Some? && used.accountExpiresAt.value > now
  }

  /** Received tokens go on to the store exactly when the response is usable, and otherwise the call is over. */
  lemma ReceivedExactlyWhenUsable(p: Policy, s: State, c: nat, now: nat)
    requires c in s.callers && CanRespond(s.callers[c].pc, Received)
    ensures var pc, after := s.callers[c].pc, StepRespond(p, s, c, Received, now);
            && c in after.callers && after.store == s.store
            && (if ResponseUsable(p, pc.used, pc.granted.value, now) then
                  after.callers[c].pc == Granted(pc.lock, pc.used, Refreshed(pc.used, pc.granted.value, now))
                  && after.log == s.log
                else
                  after.callers[c].pc == Returned(Err(TokenExpired)) && after.log == s.log + [Unusable(s.callers[c].key)])
  {
    hide Bearer;
  }

  /** Runs from a state that a run has reached continue that run. */
  lemma {:induction false} RunAppend(p: Policy, initial: State, actions: seq<Action>, s: State, more: seq<Action>)
    requires Run(p, initial, actions) == Some(s)
    ensures Run(p, initial, actions + more) == Run(p, s, more)
    decreases |more|
  {
    hide Step;
    if more == [] {
      assert actions + more == actions;
    } else {
      RunAppend(p, initial, actions, s, more[..|more| - 1]);
      assert (actions + more)[..|actions + more| - 1] == actions + more[..|more| - 1];
    }
  }

  lemma RunOne(p: Policy, s: State, a: Action)
    ensures Run(p, s, [a]) == Step(p, s, a)
  {
    assert [a][..0] == [];
  }

  /** A forced refresh that waits for a lock nobody holds sends the token that is stored. */
  lemma WaiterSends(p: Policy, s: State, d: nat, now: nat) returns (moves: seq<Action>)
    requires d in s.callers && s.callers[d].pc.Waiting? && s.callers[d].kind.Force? && s.callers[d].pc.lock !in s.holders
    requires s.callers[d].key in s.store && !IsBlank(s.store[s.callers[d].key].tokens.refreshToken)
    ensures var key, after := s.callers[d].key, Run(p, s, moves);
            && after.Some?
            && after.value.log == s.log + [Sent(key, s.store[key].tokens.refreshToken, Force, s.store[key], now)]
  {
    hide ShouldRefresh, IsBlank, TokenFrom, Run, StepLoad, StepFindLock, StepIssue, StepRespond, StepPersist,
         StepSettle, StepDrop;
    moves := [Act(d, Acquire)] + [Act(d, Reread(false, now))] + [Act(d, Send)];
    var locked := Step(p, s, Act(d, Acquire)).value;
    RunOne(p, s, Act(d, Acquire));
    RunAppend(p, s, [Act(d, Acquire)], locked, [Act(d, Reread(false, now))]);
    RunOne(p, locked, Act(d, Reread(false, now)));
    var ready := Step(p, locked, Act(d, Reread(false, now))).value;
    assert ready.callers[d].pc == Ready(s.callers[d].pc.lock, s.store[s.callers[d].key], now);
    RunAppend(p, s, [Act(d, Acquire)] + [Act(d, Reread(false, now))], ready, [Act(d, Send)]);
    RunOne(p, ready, Act(d, Send));
  }

  /** The two moves after which a token that the server issued is lost, and what they log. */
  function LosingMove(dropped: bool): Move {
    if dropped then Drop else Respond(Received, 20)
  }

  function LosingEvent(dropped: bool, key: string): Event {
    if dropped then Abandoned(key) else Unusable(key)
  }

  /**
   So a replaced token can be presented again: for any two forced refreshes of one key, of which the first is in
   flight and the second waits for the lock, if the server answers the first and the answer is lost, for want of
   an expiry or of the caller, the second sends the token that the server has just replaced.
   */
  lemma ReplacedTokenIsPresentedAgain(p: Policy, s: State, c: nat, d: nat, tokens: TokenSet, dropped: bool)
    returns (moves: seq<Action>)
    requires Inv(p, s) && c in s.callers && s.callers[c].pc.InFlight? && s.callers[c].pc.granted.None?
    requires d in s.callers && s.callers[d].pc == Waiting(s.callers[c].pc.lock)
    requires s.callers[d].key == s.callers[c].key && s.callers[d].kind.Force?
    requires !IsBlank(s.callers[c].pc.used.tokens.refreshToken)
    requires dropped || !ResponseUsable(p, s.callers[c].pc.used, tokens, 20)
    ensures var key, used, after := s.callers[c].key, s.callers[c].pc.used, Run(p, s, moves);
            && after.Some?
            && after.value.log == s.log + [
                 Issued(key, used.tokens.refreshToken, tokens.refreshToken), LosingEvent(dropped, key),
                 Sent(key, used.tokens.refreshToken, Force, used, 30)]
  {
    AllOk(p, s, c);
    hide Inv, ShouldRefresh, IsBlank, Run;
    var key, used := s.callers[c].key, s.callers[c].pc.used;
    var issue, lose := Act(c, Issue(tokens)), Act(c, LosingMove(dropped));
    var issued, lost := AnswerIsLost(p, s, c, tokens, dropped);
    RunOne(p, s, issue);
    RunAppend(p, s, [issue], issued, [lose]);
    RunOne(p, issued, lose);
    var last := WaiterSends(p, lost, d, 30);
    RunAppend(p, s, [issue] + [lose], lost, last);
    moves := [issue] + [lose] + last;
  }

  lemma AnswerIsLost(p: Policy, s: State, c: nat, tokens: TokenSet, dropped: bool) returns (issued: State, lost: State)
    requires CallerOk(p, s, c) && s.callers[c].pc.InFlight? && s.callers[c].pc.granted.None?
    requires dropped || !ResponseUsable(p, s.callers[c].pc.used, tokens, 20)
    ensures Step(p, s, Act(c, Issue(tokens))) == Some(issued)
    ensures Step(p, issued, Act(c, LosingMove(dropped))) == Some(lost)
    ensures lost.store == s.store && lost.holders == s.holders - {s.callers[c].pc.lock} && c in lost.callers
    ensures lost.callers == s.callers[c := lost.callers[c]]
    ensures var key := s.callers[c].key;
            lost.log == s.log + [Issued(key, s.callers[c].pc.used.tokens.refreshToken, tokens.refreshToken),
                                 LosingEvent(dropped, key)]
  {
    hide ShouldRefresh, Usable, Bearer;
    issued := StepIssue(s, c, tokens);
    if !dropped { ReceivedExactlyWhenUsable(p, issued, c, 20); }
    lost := if dropped then StepDrop(issued, c).value else StepRespond(p, issued, c, Received, 20);
    assert lost.callers == s.callers[c := lost.callers[c]];
  }

  const HOUR: Policy := Policy(3600, 3, U64_MAX)
  const OLD: Credentials := Credentials(TokenSet("a1", None, "r1", None), None, 0, None)
  const OUTSET: State := State(map["k" := OLD], map[], map[], 0, map[], map[], [])

  function TwoForced(first: Pc, second: Pc): map<nat, Caller> {
    map[0 := Caller(Force, "k", first), 1 := Caller(Force, "k", second)]
  }

  lemma Extend(p: Policy, initial: State, actions: seq<Action>, a: Action, s: State, after: State)
    requires Run(p, initial, actions) == Some(s) && Step(p, s, a).Some?
    requires SameCore(Step(p, s, a).value, after) && Step(p, s, a).value.counts == after.counts
    requires Step(p, s, a).value.log == after.log
    ensures Run(p, initial, actions + [a]) == Some(after)
  {
    assert (actions + [a])[..|actions|] == actions;
  }

  function Queueing(first: Pc, second: Pc): State {
    State(map["k" := OLD], map["k" := 0], map[], 1, map[], TwoForced(first, second), [])
  }

  lemma TwoForcedWait() returns (actions: seq<Action>)
    ensures Run(HOUR, OUTSET, actions) == Some(Queueing(Waiting(0), WantLock))
  {
    assert Run(HOUR, OUTSET, []) == Some(OUTSET);
    hide Run, IsBlank, ShouldRefresh, TokenFrom, StepReread, StepSend, StepIssue, StepRespond, StepPersist, StepSettle,
         StepDrop, GivenUp, Unprocessed;
    var s1 := OUTSET.(callers := map[0 := Caller(Force, "k", Start)]);
    Extend(HOUR, OUTSET, [], Call(0, Force, "k"), OUTSET, s1);
    var s2 := OUTSET.(callers := TwoForced(Start, Start));
    Extend(HOUR, OUTSET, [Call(0, Force, "k")], Call(1, Force, "k"), s1, s2);
    actions := [Call(0, Force, "k")] + [Call(1, Force, "k")];
    var s3 := OUTSET.(callers := TwoForced(WantLock, Start));
    Extend(HOUR, OUTSET, actions, Act(0, Load(false, 10)), s2, s3);
    actions := actions + [Act(0, Load(false, 10))];
    var s4 := OUTSET.(callers := TwoForced(WantLock, WantLock));
    Extend(HOUR, OUTSET, actions, Act(1, Load(false, 10)), s3, s4);
    actions := actions + [Act(1, Load(false, 10))];
    Extend(HOUR, OUTSET, actions, Act(0, FindLock), s4, Queueing(Waiting(0), WantLock));
    actions := actions + [Act(0, FindLock)];
  }

  lemma NotBlank()
    ensures !IsBlank(OLD.tokens.refreshToken)
  {
    assert !IsWhitespace(OLD.tokens.refreshToken[0]);
  }

  lemma FirstForcedSends(actions: seq<Action>) returns (longer: seq<Action>, s: State)
    requires Run(HOUR, OUTSET, actions) == Some(Queueing(Waiting(0), WantLock))
    ensures Run(HOUR, OUTSET, longer) == Some(s)
    ensures s.callers == TwoForced(InFlight(0, OLD, None), Waiting(0)) && s.log == [Sent("k", "r1", Force, OLD, 10)]
  {
    NotBlank();
    hide ShouldRefresh, TokenFrom, IsBlank, Run;
    var s6, s7 := Queueing(Waiting(0), Waiting(0)), Queueing(Locked(0), Waiting(0)).(holders := map[0 := 0]);
    Extend(HOUR, OUTSET, actions, Act(1, FindLock), Queueing(Waiting(0), WantLock), s6);
    longer := actions + [Act(1, FindLock)];
    Extend(HOUR, OUTSET, longer, Act(0, Acquire), s6, s7);
    longer := longer + [Act(0, Acquire)];
    var s8 := s7.(callers := TwoForced(Ready(0, OLD, 10), Waiting(0)));
    Extend(HOUR, OUTSET, longer, Act(0, Reread(false, 10)), s7, s8);
    longer := longer + [Act(0, Reread(false, 10))];
    s := s7.(callers := TwoForced(InFlight(0, OLD, None), Waiting(0)), log := [Sent("k", "r1", Force, OLD, 10)]);
    Extend(HOUR, OUTSET, longer, Act(0, Send), s8, s);
    longer := longer + [Act(0, Send)];
  }

  /**
   Both happen in runs from a fresh manager: the server answers `r1` with `r2`, the answer has no expiry or its
   caller is dropped, and `r1` is sent once more.
   */
  lemma ReplacedTokenRun(dropped: bool)
    ensures exists s ::
              && Reachable(HOUR, OUTSET, s)
              && s.log == [Sent("k", "r1", Force, OLD, 10), Issued("k", "r1", "r2"), LosingEvent(dropped, "k"),
                           Sent("k", "r1", Force, OLD, 30)]
  {
    hide Step, Inv, Run, IsBlank, ShouldRefresh, TokenFrom;
    var waited := TwoForcedWait();
    var actions, s := FirstForcedSends(waited);
    RunKeepsInv(HOUR, OUTSET, actions);
    NotBlank();
    var moves := ReplacedTokenIsPresentedAgain(HOUR, s, 0, 1, TokenSet("a2", None, "r2", None), dropped);
    RunAppend(HOUR, OUTSET, actions, s, moves);
    var after := Run(HOUR, s, moves).value;
    assert Run(HOUR, OUTSET, actions + moves) == Some(after);
    assert Reachable(HOUR, OUTSET, after);
  }
}
