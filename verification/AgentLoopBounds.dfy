/** How long a run can get: streams opened, compactions and continuations. */
module AgentLoopBounds {
  import opened Prelude
  import opened AgentLoop
  import opened Session
  import Q = Queues

  function Compactions(kinds: seq<TurnKind>): nat {
    if kinds == [] then 0
    else Compactions(kinds[..|kinds| - 1]) + if kinds[|kinds| - 1].Compacted? then 1 else 0
  }

  /** How many compactions the list ends with. */
  function Trailing(kinds: seq<TurnKind>): nat {
    if kinds == [] || !kinds[|kinds| - 1].Compacted? then 0 else 1 + Trailing(kinds[..|kinds| - 1])
  }

  /** How many continuations since the last turn that used tools. */
  function SinceTools(kinds: seq<TurnKind>): nat {
    if kinds == [] || kinds[|kinds| - 1].UsedTools? then 0
    else SinceTools(kinds[..|kinds| - 1]) + if kinds[|kinds| - 1].Continued? then 1 else 0
  }

  function Continuations(kinds: seq<TurnKind>): nat {
    if kinds == [] then 0
    else Continuations(kinds[..|kinds| - 1]) + if kinds[|kinds| - 1].Continued? then 1 else 0
  }

  predicate EveryPrefixBounded(kinds: seq<TurnKind>) {
    kinds == [] ||
    (EveryPrefixBounded(kinds[..|kinds| - 1])
     && Trailing(kinds) <= MAX_CONTEXT_LIMIT_RETRIES
     && SinceTools(kinds) <= MAX_INCOMPLETE_CONTINUATION_ATTEMPTS)
  }

  /** What holds of a run's turns, whatever the model and the tools do. */
  ghost predicate RunBounds(s: State) {
    && |s.requests| <= s.turns <= MAX_TURNS
    && |s.kinds| <= s.turns
    && s.contextRetries <= MAX_CONTEXT_LIMIT_RETRIES
    && (forall i: nat, j: nat | OnlyCompacts(s.kinds, i, j) :: j - i <= 5)
    && 6 * Compactions(s.kinds) <= 5 * s.turns + s.contextRetries
    && Compactions(s.kinds) <= 27
    && (forall i: nat, j: nat | WithoutTools(s.kinds, i, j) :: Continuations(s.kinds[i..j]) <= 3)
  }

  predicate OnlyCompacts(kinds: seq<TurnKind>, i: nat, j: nat) {
    i <= j <= |kinds| && forall k | i <= k < j :: kinds[k].Compacted?
  }

  predicate WithoutTools(kinds: seq<TurnKind>, i: nat, j: nat) {
    i <= j <= |kinds| && forall k | i <= k < j :: !kinds[k].UsedTools?
  }

  predicate InTurn(p: Phase) {
    p.Announce? || p.Repair? || p.Opening? || p.Streaming? || p.Gathered? || p.Recorded? || p.Settled?
  }

  /** The model answered this turn, and the turn's kind is still to be decided. */
  predicate Counted(p: Phase) {
    p.Recorded? || p.Settled?
  }

  predicate BoundsInv(s: State) {
    && s.turns <= MAX_TURNS
    && |s.kinds| + (if InTurn(s.phase) then 1 else 0) <= s.turns
    && |s.requests| + (if s.phase.Announce? || s.phase.Repair? then 1 else 0) <= s.turns
    && s.contextRetries <= MAX_CONTEXT_LIMIT_RETRIES
    && (Counted(s.phase) || s.phase.Ended? || s.contextRetries == Trailing(s.kinds))
    && (Counted(s.phase) ==> s.contextRetries == 0)
    && s.continuationRetries <= MAX_INCOMPLETE_CONTINUATION_ATTEMPTS
    && s.continuationRetries == SinceTools(s.kinds)
    && EveryPrefixBounded(s.kinds)
    && 6 * Compactions(s.kinds) <= 5 * s.turns + s.contextRetries
  }

  lemma {:induction false} CompactionShare(kinds: seq<TurnKind>)
    requires EveryPrefixBounded(kinds)
    ensures 6 * Compactions(kinds) <= 5 * |kinds| + Trailing(kinds)
  {
    if kinds != [] { CompactionShare(kinds[..|kinds| - 1]); }
  }

  lemma KindSnoc(kinds: seq<TurnKind>, k: TurnKind)
    ensures Compactions(kinds + [k]) == Compactions(kinds) + if k.Compacted? then 1 else 0
    ensures Trailing(kinds + [k]) == if k.Compacted? then Trailing(kinds) + 1 else 0
    ensures SinceTools(kinds + [k]) == if k.UsedTools? then 0 else SinceTools(kinds) + if k.Continued? then 1 else 0
    ensures EveryPrefixBounded(kinds + [k]) <==>
            EveryPrefixBounded(kinds) && Trailing(kinds + [k]) <= 5 && SinceTools(kinds + [k]) <= 3
  {
    assert (kinds + [k])[..|kinds|] == kinds;
  }

  lemma BoundsTop(s: State, cancelled: bool, fetched: seq<Message>)
    requires BoundsInv(s) && s.phase.Top?
    ensures BoundsInv(StepTop(s, cancelled, fetched))
  {
  }

  lemma BoundsStreamFails(s: State, contextLimit: bool)
    requires BoundsInv(s) && (s.phase.Opening? || s.phase.Streaming?)
    ensures BoundsInv(StepStreamFails(s, contextLimit))
  {
    KindSnoc(s.kinds, Compacted);
    CompactionShare(s.kinds);
  }

  lemma BoundsFollowUp(s: State, fetched: seq<Message>)
    requires BoundsInv(s) && s.phase.Settled? && StepFollowUp(s, fetched).Some?
    ensures BoundsInv(StepFollowUp(s, fetched).value)
  {
    KindSnoc(s.kinds, Followed);
    CompactionShare(s.kinds + [Followed]);
  }

  lemma BoundsSettled(s: State)
    requires BoundsInv(s) && s.phase.Settled? && StepSettled(s).Some?
    ensures BoundsInv(StepSettled(s).value)
  {
    KindSnoc(s.kinds, UsedTools);
    KindSnoc(s.kinds, Continued);
  }

  lemma BoundsGathered(cfg: Config, s: State)
    requires BoundsInv(s) && s.phase.Gathered?
    ensures BoundsInv(StepGathered(cfg, s))
  {
    CompactionShare(s.kinds);
  }

  /** Steps that leave every counter alone and do not start a turn. */
  lemma BoundsQuiet(s: State, after: State)
    requires BoundsInv(s)
    requires after.turns == s.turns && after.kinds == s.kinds && after.requests == s.requests
    requires after.contextRetries == s.contextRetries && after.continuationRetries == s.continuationRetries
    requires InTurn(after.phase) ==> InTurn(s.phase)
    requires after.phase.Announce? || after.phase.Repair? ==> s.phase.Announce? || s.phase.Repair?
    requires after.phase.Ended? || (!s.phase.Ended? && (Counted(s.phase) <==> Counted(after.phase)))
    ensures BoundsInv(after)
  {
  }

  lemma BoundsRepair(s: State)
    requires BoundsInv(s) && s.phase.Repair?
    ensures BoundsInv(StepRepair(s))
  {
    hide EveryPrefixBounded, Trailing, SinceTools, Compactions;
  }

  lemma BoundsAdvance(cfg: Config, s: State)
    requires BoundsInv(s) && StepAdvance(cfg, s).Some?
    ensures BoundsInv(StepAdvance(cfg, s).value)
  {
    hide BoundsInv, StepRepair, StepGathered, StepSettled, StepTools;
    match s.phase {
      case Repair => BoundsRepair(s);
      case Gathered(_) => BoundsGathered(cfg, s);
      case Settled(_) => BoundsSettled(s);
      case Announce => BoundsQuiet(s, StepAdvance(cfg, s).value);
      case Recorded(_) => BoundsQuiet(s, StepAdvance(cfg, s).value);
      case Starting(_) => BoundsQuiet(s, StepAdvance(cfg, s).value);
      case Tools(_) =>
        ToolsFrame(cfg, s);
        BoundsQuiet(s, StepAdvance(cfg, s).value);
      case Reporting(_, _) => BoundsQuiet(s, StepAdvance(cfg, s).value);
      case _ =>
    }
  }

  lemma BoundsStep(cfg: Config, s: State, a: Action)
    requires BoundsInv(s) && Step(cfg, s, a).Some?
    ensures BoundsInv(Step(cfg, s, a).value)
  {
    hide BoundsInv, StepTop, StepAdvance, StepStreamFails, StepFollowUp, StepTask;
    match a {
      case Loop(cancelled, fetched) => BoundsTop(s, cancelled, fetched);
      case Advance => BoundsAdvance(cfg, s);
      case StreamFails(contextLimit) => BoundsStreamFails(s, contextLimit);
      case FollowUp(fetched) => BoundsFollowUp(s, fetched);
      case TaskStep(i, act) =>
        TaskFrame(cfg, s, i, act);
        BoundsQuiet(s, Step(cfg, s, a).value);
      case _ => BoundsQuiet(s, Step(cfg, s, a).value);
    }
  }

  lemma {:induction false} RunKeepsBounds(cfg: Config, initial: State, actions: seq<Action>)
    requires Initial(initial) && Run(cfg, initial, actions).Some?
    ensures BoundsInv(Run(cfg, initial, actions).value)
  {
    if actions != [] {
      var front := actions[..|actions| - 1];
      RunKeepsBounds(cfg, initial, front);
      BoundsStep(cfg, Run(cfg, initial, front).value, actions[|actions| - 1]);
    }
  }

  lemma {:induction false} CompactWindow(kinds: seq<TurnKind>, i: nat, j: nat)
    requires OnlyCompacts(kinds, i, j)
    requires EveryPrefixBounded(kinds)
    ensures j - i <= 5
    decreases |kinds|
  {
    if j < |kinds| {
      CompactWindow(kinds[..|kinds| - 1], i, j);
    } else {
      TrailingAtLeast(kinds, i);
    }
  }

  lemma {:induction false} TrailingAtLeast(kinds: seq<TurnKind>, i: nat)
    requires i <= |kinds| && forall k | i <= k < |kinds| :: kinds[k].Compacted?
    ensures Trailing(kinds) >= |kinds| - i
  {
    if i < |kinds| { TrailingAtLeast(kinds[..|kinds| - 1], i); }
  }

  lemma {:induction false} ContinuationWindow(kinds: seq<TurnKind>, i: nat, j: nat)
    requires WithoutTools(kinds, i, j)
    requires EveryPrefixBounded(kinds)
    ensures Continuations(kinds[i..j]) <= 3
    decreases |kinds|
  {
    if j < |kinds| {
      var front := kinds[..|kinds| - 1];
      ContinuationWindow(front, i, j);
      assert front[i..j] == kinds[i..j];
    } else {
      ContinuationsSince(kinds, i);
      assert kinds[i..j] == kinds[i..];
    }
  }

  lemma {:induction false} ContinuationsSince(kinds: seq<TurnKind>, i: nat)
    requires i <= |kinds| && forall k | i <= k < |kinds| :: !kinds[k].UsedTools?
    ensures Continuations(kinds[i..]) <= SinceTools(kinds)
  {
    if i < |kinds| {
      var front := kinds[..|kinds| - 1];
      ContinuationsSince(front, i);
      assert kinds[i..][..|kinds[i..]| - 1] == front[i..];
    }
  }

  lemma WindowsBounded(kinds: seq<TurnKind>)
    requires EveryPrefixBounded(kinds)
    ensures forall i: nat, j: nat | OnlyCompacts(kinds, i, j) :: j - i <= 5
    ensures forall i: nat, j: nat | WithoutTools(kinds, i, j) :: Continuations(kinds[i..j]) <= 3
  {
    forall i: nat, j: nat | OnlyCompacts(kinds, i, j) ensures j - i <= 5 {
      CompactWindow(kinds, i, j);
    }
    forall i: nat, j: nat | WithoutTools(kinds, i, j) ensures Continuations(kinds[i..j]) <= 3 {
      ContinuationWindow(kinds, i, j);
    }
  }
}
