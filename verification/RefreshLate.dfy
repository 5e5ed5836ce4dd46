/**
 Requests that the server processes after their callers have given them up: the token that is issued reaches
 nobody, and the one it replaces stays in the store until another refresh stores a new one.
 */
module RefreshLate {
  import opened Prelude
  import opened Refresh
  import opened RefreshGrants

  /** The late answer at `i` is to a request of the same key that was given up before, and is its only one. */
  ghost predicate LateOk(log: seq<Event>, i: nat)
    requires i < |log| && log[i].IssuedLate?
  {
    var q := log[i].request;
    && q < i && GivenUp(log[..i], q) && Unprocessed(log[..i], q)
    && log[q].key == log[i].key && log[q].token == log[i].replaced
  }

  ghost predicate AllLateOk(log: seq<Event>) {
    forall i | 0 <= i < |log| && log[i].IssuedLate? :: LateOk(log, i)
  }

  lemma LateSnoc(log: seq<Event>, e: Event)
    requires AllLateOk(log)
    requires e.IssuedLate? ==>
               && GivenUp(log, e.request) && Unprocessed(log, e.request)
               && log[e.request].key == e.key && log[e.request].token == e.replaced
    ensures AllLateOk(log + [e])
  {
    hide GivenUp, Unprocessed;
    var longer := log + [e];
    forall i | 0 <= i < |longer| && longer[i].IssuedLate? ensures LateOk(longer, i) {
      if i < |log| {
        assert longer[..i] == log[..i] && longer[i] == log[i] && LateOk(log, i);
      } else {
        assert longer[..i] == log && GivenUp(log, e.request);
        GivenUpIsSent(log, e.request);
      }
    }
  }

  lemma GivenUpIsSent(log: seq<Event>, q: int)
    requires GivenUp(log, q)
    ensures 0 <= q < |log| && log[q].Sent?
  {
  }

  lemma ActIsNeverLate(p: Policy, s: State, after: State, c: nat, move: Move)
    requires Inv(p, s) && c in s.callers && StepAct(p, s, c, move) == Some(after)
    ensures after.log == s.log || exists e :: after.log == s.log + [e] && !e.IssuedLate?
  {
    AllOk(p, s, c);
    ActGrants(p, s, c, move, after);
    hide StepAct, Inv, CallerOk, Grant, TokenAt, IsOutcome;
    if after.log != s.log { assert after.log == s.log + [after.log[|s.log|]]; }
  }

  lemma StepKeepsLate(p: Policy, s: State, a: Action)
    requires Inv(p, s) && AllLateOk(s.log) && Step(p, s, a).Some?
    ensures AllLateOk(Step(p, s, a).value.log)
  {
    var after := Step(p, s, a).value;
    hide Inv, AllLateOk, StepAct, NextConcern, Unprocessed;
    match a {
      case Call(_, _, _) =>
      case Act(c, move) =>
        ActIsNeverLate(p, s, after, c, move);
        if e :| after.log == s.log + [e] && !e.IssuedLate? { LateSnoc(s.log, e); }
      case IssueLate(q, tokens) => LateSnoc(s.log, IssuedLate(s.log[q].key, s.log[q].token, tokens.refreshToken, q));
    }
  }

  lemma {:induction false} RunKeepsLate(p: Policy, initial: State, actions: seq<Action>)
    requires Initial(initial) && Run(p, initial, actions).Some?
    ensures AllLateOk(Run(p, initial, actions).value.log)
  {
    if actions != [] {
      var front := actions[..|actions| - 1];
      RunKeepsLate(p, initial, front);
      RunKeepsInv(p, initial, front);
      StepKeepsLate(p, Run(p, initial, front).value, actions[|actions| - 1]);
    }
  }

  predicate StoresFor(e: Event, key: string) {
    e.Stored? && e.key == key
  }

  /** The last token stored for the key between the two positions is another one than `t`. */
  predicate Overwritten(log: seq<Event>, q: int, j: int, key: string, t: string)
    requires j <= |log|
  {
    exists k :: 0 <= k < j && q < k && StoresFor(log[k], key) && log[k].stored != t
                && forall l | k < l < j :: !StoresFor(log[l], key)
  }

  lemma {:induction false} CurrentUnlessOverwritten(initial: State, log: seq<Event>, q: nat, j: nat, key: string, t: string)
    requires q < j <= |log| && CurrentToken(initial, log[..q], key) == Some(t) && !StoresFor(log[q], key)
    ensures var now := CurrentToken(initial, log[..j], key);
            now == None || (now == Some(t) <==> !Overwritten(log, q, j, key, t))
    decreases j
  {
    var e := log[j - 1];
    assert log[..j] == log[..j - 1] + [e];
    CurrentSnoc(initial, log[..j - 1], e, key);
    if j - 1 == q {
      assert !Overwritten(log, q, j, key, t);
    } else {
      CurrentUnlessOverwritten(initial, log, q, j - 1, key, t);
      hide CurrentToken;
      if StoresFor(e, key) {
        StoringOverwrites(log, q, j, key, t);
      } else {
        OverwrittenBefore(log, q, j, key, t);
      }
    }
  }

  lemma StoringOverwrites(log: seq<Event>, q: nat, j: nat, key: string, t: string)
    requires q < j - 1 < |log| && StoresFor(log[j - 1], key)
    ensures Overwritten(log, q, j, key, t) <==> log[j - 1].stored != t
  {
    if Overwritten(log, q, j, key, t) {
      var k :| 0 <= k < j && q < k && StoresFor(log[k], key) && log[k].stored != t
               && forall l | k < l < j :: !StoresFor(log[l], key);
      assert k == j - 1;
    }
  }

  lemma OverwrittenBefore(log: seq<Event>, q: nat, j: nat, key: string, t: string)
    requires q < j - 1 < |log| && !StoresFor(log[j - 1], key)
    ensures Overwritten(log, q, j, key, t) <==> Overwritten(log, q, j - 1, key, t)
  {
    if Overwritten(log, q, j - 1, key, t) {
      var k :| 0 <= k < j - 1 && q < k && StoresFor(log[k], key) && log[k].stored != t
               && forall l | k < l < j - 1 :: !StoresFor(log[l], key);
      assert forall l | k < l < j :: !StoresFor(log[l], key);
    }
    if Overwritten(log, q, j, key, t) {
      var k :| 0 <= k < j && q < k && StoresFor(log[k], key) && log[k].stored != t
               && forall l | k < l < j :: !StoresFor(log[l], key);
      assert forall l | k < l < j - 1 :: !StoresFor(log[l], key);
    }
  }

  /**
   Over every interleaving, let the server process a request only after its caller has given it up. A later
   request of the key presents the token that was replaced, iff no other token has been stored for the key since
   the request that replaced it was sent.
   */
  lemma LateReplacedTokenReturns(p: Policy, initial: State, s: State, i: nat, j: nat)
    requires Reachable(p, initial, s) && i < j < |s.log| && s.log[i].IssuedLate? && s.log[j].Sent?
    requires s.log[j].key == s.log[i].key
    ensures var q := s.log[i].request;
            && q < i && GivenUp(s.log[..i], q) && s.log[q].key == s.log[i].key && s.log[q].token == s.log[i].replaced
            && (s.log[j].token == s.log[i].replaced <==>
                !Overwritten(s.log, q, j, s.log[i].key, s.log[i].replaced))
  {
    var actions :| Run(p, initial, actions) == Some(s);
    RunKeepsLate(p, initial, actions);
    RunKeepsLog(p, initial, actions);
    hide Run, Reachable, CurrentToken, ShouldRefresh, NextConcern, Unprocessed, Overwritten, StoreMatchesLog,
         StoresReplaceCurrent;
    assert LateOk(s.log, i);
    var q := s.log[i].request;
    GivenUpIsSent(s.log[..i], q);
    assert SendJustified(p, initial, s.log, q) && SendJustified(p, initial, s.log, j);
    CurrentUnlessOverwritten(initial, s.log, q, j, s.log[i].key, s.log[i].replaced);
  }

  /** It happens in a run from a fresh manager: `r1` is replaced by `r2` after its caller was dropped, and sent again. */
  lemma LateAnswerRun()
    ensures exists s ::
              && Reachable(HOUR, OUTSET, s)
              && s.log == [Sent("k", "r1", Force, OLD, 10), Abandoned("k"), IssuedLate("k", "r1", "r2", 0),
                           Sent("k", "r1", Force, OLD, 30)]
  {
    hide Inv, Run, IsBlank, ShouldRefresh, TokenFrom;
    var waited := TwoForcedWait();
    var actions, s := FirstForcedSends(waited);
    RunKeepsInv(HOUR, OUTSET, actions);
    AllOk(HOUR, s, 0);
    NotBlank();
    var dropped, late := DroppedThenLate(s);
    hide Step;
    var drop, answer := Act(0, Drop), IssueLate(0, TokenSet("a2", None, "r2", None));
    var moves := WaiterSends(HOUR, late, 1, 30);
    RunOne(HOUR, s, drop);
    RunAppend(HOUR, s, [drop], dropped, [answer]);
    RunOne(HOUR, dropped, answer);
    RunAppend(HOUR, s, [drop] + [answer], late, moves);
    RunAppend(HOUR, OUTSET, actions, s, [drop] + [answer] + moves);
    var after := Run(HOUR, late, moves).value;
    assert Run(HOUR, OUTSET, actions + ([drop] + [answer] + moves)) == Some(after);
    assert Reachable(HOUR, OUTSET, after);
  }

  lemma {:induction false} NoneLate(log: seq<Event>, q: nat)
    requires forall e | e in log :: !e.IssuedLate?
    ensures Unprocessed(log, q)
  {
    if log != [] { NoneLate(log[..|log| - 1], q); }
  }

  lemma DroppedThenLate(s: State) returns (dropped: State, late: State)
    requires CallerOk(HOUR, s, 0) && s.callers == TwoForced(InFlight(0, OLD, None), Waiting(0))
    requires s.log == [Sent("k", "r1", Force, OLD, 10)]
    ensures Step(HOUR, s, Act(0, Drop)) == Some(dropped)
    ensures Step(HOUR, dropped, IssueLate(0, TokenSet("a2", None, "r2", None))) == Some(late)
    ensures late.store == s.store && "k" in late.store && late.store["k"] == OLD && 0 !in late.holders
    ensures 1 in late.callers && late.callers[1] == Caller(Force, "k", Waiting(0))
    ensures late.log == [Sent("k", "r1", Force, OLD, 10), Abandoned("k"), IssuedLate("k", "r1", "r2", 0)]
  {
    hide Usable, ShouldRefresh;
    dropped := StepDrop(s, 0).value;
    assert dropped.log == [Sent("k", "r1", Force, OLD, 10), Abandoned("k")];
    assert NextConcern(dropped.log, 0) == Some(Abandoned("k"));
    assert GivenUp(dropped.log, 0);
    NoneLate(dropped.log, 0);
    late := StepIssueLate(dropped, 0, TokenSet("a2", None, "r2", None));
  }
}
