/**
 How a run goes on (`execute` of crates/taugentic-agent/src/turn_loop.rs): how its turns start and end, what a
 turn records of its stream, when the run completes, and which calls run together.
 */
module AgentLoopDecisions {
  import opened Prelude
  import opened Wire
  import opened AgentLoop
  import opened AgentLoopTools
  import opened AgentLoopBounds
  import S = Session
  import Q = Queues
  import C = Collector

  // Turns start and end.

  /** What a drain takes of a lane: all of it, or its oldest message. */
  predicate Delivers(mode: Q.Mode, lane: seq<S.Message>, delivered: seq<S.Message>, left: seq<Q.Queued>) {
    match mode
    case All => delivered == lane && left == []
    case OneAtATime =>
      if lane == [] then delivered == [] && left == [] else delivered == lane[..1] && Q.Messages(left) == lane[1..]
  }

  lemma SteeringDelivers(q: Q.Queue, fetched: seq<S.Message>)
    ensures var (after, delivered) := Q.DrainSteering(q, fetched);
            Delivers(q.steeringMode, Q.Messages(q.steering) + fetched, delivered, after.steering)
            && after.followUp == q.followUp
  {
    Q.DrainsByMode(q, fetched);
    Q.DrainSteeringConserves(q, fetched);
    hide Q.DrainSteering;
  }

  lemma FollowUpDelivers(q: Q.Queue, fetched: seq<S.Message>)
    ensures var (after, delivered) := Q.DrainFollowUp(q, fetched);
            Delivers(q.followUpMode, Q.Messages(q.followUp) + fetched, delivered, after.followUp)
            && after.steering == q.steering
            && (delivered == [] <==> Q.Messages(q.followUp) + fetched == [])
  {
    Q.DrainsByMode(q, fetched);
    Q.DrainFollowUpConserves(q, fetched);
    hide Q.DrainFollowUp;
  }

  /**
   The top of the loop: before every turn but the first, steering messages join the history; after 32 turns the
   run is complete, whether it was cancelled or not; a cancelled run fails; otherwise a turn is announced.
   */
  lemma TurnsStart(cfg: Config, s: State, cancelled: bool, fetched: seq<S.Message>, after: State)
    requires Step(cfg, s, Loop(cancelled, fetched)) == Some(after)
    ensures after.phase == if s.turns >= 32 then Ended(Succeeded("max turns reached"))
                           else if cancelled then Ended(Errored) else Announce
    ensures after.turns == if after.phase.Announce? then s.turns + 1 else s.turns
    ensures after.phase.Announce? ==> after.calls == [] && after.results == []
    ensures if s.turns == 0 then after.history == s.history && after.ledger == s.ledger
            else
              exists delivered ::
                && after.history == s.history + delivered
                && Delivers(s.ledger.queue.steeringMode, Q.Messages(s.ledger.queue.steering) + fetched, delivered,
                            after.ledger.queue.steering)
                && after.ledger.queue.followUp == s.ledger.queue.followUp
  {
    SteeringDelivers(s.ledger.queue, fetched);
    hide Delivers, Q.DrainSteering;
    if s.turns > 0 {
      var delivered := Q.DrainSteering(s.ledger.queue, fetched).1;
      assert after.history == s.history + delivered;
    }
  }

  /**
   The end of a turn without calls. Cut off by its length, it is continued unless that has happened 3 times since
   a turn last used tools, and then the run fails; otherwise follow-up messages start another turn, and without any
   the run is complete. A turn with calls goes on to run them.
   */
  lemma TurnsEnd(cfg: Config, s: State, a: Action, after: State)
    requires BoundsInv(s) && s.phase.Settled? && Step(cfg, s, a) == Some(after) && (a.Advance? || a.FollowUp?)
    ensures if s.calls != [] then a.Advance? && after.phase == Starting(0) && after.kinds == s.kinds + [UsedTools]
            else if s.phase.stop.MaxTokens? then
              a.Advance? && if SinceTools(s.kinds) < 3 then after.phase == Top && after.kinds == s.kinds + [Continued]
                            else after.phase == Ended(Errored)
            else
              && a.FollowUp?
              && exists delivered ::
                   && after.history == s.history + delivered
                   && Delivers(s.ledger.queue.followUpMode, Q.Messages(s.ledger.queue.followUp) + a.fetched, delivered,
                               after.ledger.queue.followUp)
                   && after.ledger.queue.steering == s.ledger.queue.steering
                   && if Q.Messages(s.ledger.queue.followUp) + a.fetched != [] then
                        after.phase == Top && after.kinds == s.kinds + [Followed]
                      else after.phase == Ended(Succeeded("normal end"))
  {
    hide Delivers, Q.DrainFollowUp;
    if a.FollowUp? {
      FollowUpDelivers(s.ledger.queue, a.fetched);
      var delivered := Q.DrainFollowUp(s.ledger.queue, a.fetched).1;
      assert after.history == s.history + delivered;
    }
  }

  // How runs complete.

  /** The turn that was recorded last is the end of the history, with a record for each of its calls. */
  predicate EndsWithTurn(s: State) {
    && s.history != [] && s.spoken != [] && s.history[|s.history| - 1] == s.spoken[|s.spoken| - 1]
    && s.spoken[|s.spoken| - 1].role.Assistant? && |s.spoken[|s.spoken| - 1].toolCalls| == |s.calls|
  }

  predicate EndsInv(s: State) {
    match s.phase
    case Recorded(_) => EndsWithTurn(s)
    case Settled(_) => EndsWithTurn(s)
    case Ended(Succeeded(reason)) =>
      || (reason == "max turns reached" && s.turns == 32)
      || (reason == "normal end" && EndsWithTurn(s) && s.calls == [] && s.ledger.queue.followUp == [])
    case _ => true
  }

  lemma AdvanceEnds(cfg: Config, s: State)
    requires EndsInv(s) && StepAdvance(cfg, s).Some?
    ensures EndsInv(StepAdvance(cfg, s).value)
  {
    if s.phase.Tools? { ToolsFrame(cfg, s); }
    hide C.FinalizeToolCalls, StepTools, StepRepair;
    if s.phase.Repair? { RepairOpens(s); }
  }

  lemma RepairOpens(s: State)
    ensures StepRepair(s).phase.Opening?
  {
  }

  lemma FollowUpEnds(s: State, fetched: seq<S.Message>)
    requires EndsInv(s) && s.phase.Settled? && StepFollowUp(s, fetched).Some?
    ensures EndsInv(StepFollowUp(s, fetched).value)
  {
    Q.DrainFollowUpConserves(s.ledger.queue, fetched);
    hide Q.DrainFollowUp;
  }

  lemma StepEnds(cfg: Config, s: State, a: Action, after: State)
    requires EndsInv(s) && s.turns <= 32 && Step(cfg, s, a) == Some(after)
    ensures EndsInv(after)
  {
    hide StepAdvance, StepFollowUp, StepTask, EndsWithTurn, C.Absorb, C.Finish, Q.DrainSteering, Q.Perform;
    match a {
      case Advance => AdvanceEnds(cfg, s);
      case FollowUp(fetched) => FollowUpEnds(s, fetched);
      case TaskStep(i, act) =>
        TaskFrame(cfg, s, i, act);
        TaskEnds(s, after);
      case _ =>
    }
  }

  lemma TaskEnds(s: State, after: State)
    requires EndsInv(s) && after.phase == s.phase && after.turns == s.turns && after.calls == s.calls
    requires after.history == s.history && after.spoken == s.spoken && after.ledger == s.ledger
    ensures EndsInv(after)
  {
  }

  lemma {:induction false} RunKeepsEnds(cfg: Config, initial: State, actions: seq<Action>)
    requires Initial(initial) && Run(cfg, initial, actions).Some?
    ensures EndsInv(Run(cfg, initial, actions).value)
  {
    if actions != [] {
      var front, a := actions[..|actions| - 1], actions[|actions| - 1];
      RunKeepsEnds(cfg, initial, front);
      RunKeepsBounds(cfg, initial, front);
      TurnsAtMost32(Run(cfg, initial, front).value);
      hide EndsInv, BoundsInv, Step, Initial;
      StepEnds(cfg, Run(cfg, initial, front).value, a, Run(cfg, initial, actions).value);
    }
  }

  lemma TurnsAtMost32(s: State)
    requires BoundsInv(s)
    ensures s.turns <= 32
  {
  }

  /**
   A run completes in two ways only: after 32 turns, or right after an assistant turn that calls no tool, which
   then ends the history, and with no follow-up message left.
   */
  lemma RunsCompleteInTwoWays(cfg: Config, initial: State, s: State)
    requires Reachable(cfg, initial, s) && s.phase.Ended? && s.phase.end.Succeeded?
    ensures || (s.phase.end.reason == "max turns reached" && s.turns == 32)
            || (&& s.phase.end.reason == "normal end" && s.ledger.queue.followUp == []
                && s.history != [] && s.history[|s.history| - 1].role.Assistant?
                && s.history[|s.history| - 1].toolCalls == [])
  {
    var actions :| Run(cfg, initial, actions) == Some(s);
    RunKeepsEnds(cfg, initial, actions);
  }

  // What a turn records of its stream.

  /** The events of the stream that was opened last. */
  function TurnEvents(actions: seq<Action>): seq<C.StreamEvent> {
    if actions == [] then []
    else
      match actions[|actions| - 1]
      case StreamOpens => []
      case Yield(e) => TurnEvents(actions[..|actions| - 1]) + [e]
      case _ => TurnEvents(actions[..|actions| - 1])
  }

  predicate StreamInv(s: State, events: seq<C.StreamEvent>) {
    match s.phase
    case Streaming(g) => g == C.AbsorbAll(events)
    case Gathered(turn) => turn == C.Finish(C.AbsorbAll(events))
    case _ => true
  }

  lemma StreamStep(cfg: Config, s: State, a: Action, after: State, events: seq<C.StreamEvent>)
    requires StreamInv(s, events) && Step(cfg, s, a) == Some(after)
    ensures StreamInv(after, match a case StreamOpens => [] case Yield(e) => events + [e] case _ => events)
  {
    hide StepAdvance, StepTask, StepFollowUp, StepTop, StepStreamFails, C.Absorb, C.Finish;
    match a {
      case Yield(e) => assert (events + [e])[..|events|] == events;
      case Advance => AdvanceLeavesStreams(cfg, s);
      case TaskStep(i, act) => TaskFrame(cfg, s, i, act);
      case FollowUp(fetched) => OthersLeaveStreams(s, false, fetched);
      case Loop(cancelled, fetched) => OthersLeaveStreams(s, cancelled, fetched);
      case StreamFails(contextLimit) => OthersLeaveStreams(s, contextLimit, []);
      case _ =>
    }
  }

  lemma AdvanceLeavesStreams(cfg: Config, s: State)
    requires StepAdvance(cfg, s).Some?
    ensures var phase := StepAdvance(cfg, s).value.phase; !phase.Streaming? && !phase.Gathered?
  {
    if s.phase.Tools? { ToolsFrame(cfg, s); }
    hide C.FinalizeToolCalls, StepTools, StepRepair;
    if s.phase.Repair? { RepairOpens(s); }
  }

  lemma OthersLeaveStreams(s: State, flag: bool, fetched: seq<S.Message>)
    ensures var phase := StepTop(s, flag, fetched).phase; !phase.Streaming? && !phase.Gathered?
    ensures var phase := StepStreamFails(s, flag).phase; !phase.Streaming? && !phase.Gathered?
    ensures s.phase.Settled? && StepFollowUp(s, fetched).Some? ==>
              var phase := StepFollowUp(s, fetched).value.phase; !phase.Streaming? && !phase.Gathered?
  {
    hide Q.DrainSteering, Q.DrainFollowUp, Q.Perform, S.Compacted;
  }

  lemma {:induction false} RunKeepsStream(cfg: Config, initial: State, actions: seq<Action>)
    requires Initial(initial) && Run(cfg, initial, actions).Some?
    ensures StreamInv(Run(cfg, initial, actions).value, TurnEvents(actions))
  {
    if actions != [] {
      var front, a := actions[..|actions| - 1], actions[|actions| - 1];
      RunKeepsStream(cfg, initial, front);
      hide StreamInv, Step, Initial;
      StreamStep(cfg, Run(cfg, initial, front).value, a, Run(cfg, initial, actions).value, TurnEvents(front));
    }
  }

  /** A record of a call says its id, its name and its rendered input. */
  predicate Records(cfg: Config, m: S.Message, calls: seq<C.Partial>) {
    && |m.toolCalls| == |calls|
    && forall i | 0 <= i < |calls| ::
         m.toolCalls[i] == S.CallRecord(calls[i].id, calls[i].name, cfg.render(calls[i].input))
  }

  /**
   What a turn records is what its stream said: the history grows by one assistant message with the text and the
   calls that the events assemble to, as far as they can be used; if they cannot, the run fails and the history
   stays. The calls then run are the ones recorded.
   */
  lemma TurnsRecordTheirStream(cfg: Config, initial: State, actions: seq<Action>, after: State)
    requires Initial(initial) && Run(cfg, initial, actions).Some?
    requires Run(cfg, initial, actions).value.phase.Gathered?
    requires Step(cfg, Run(cfg, initial, actions).value, Advance) == Some(after)
    ensures var s, said := Run(cfg, initial, actions).value, C.Assemble(TurnEvents(actions));
            match C.FinalizeToolCalls(cfg.parses, said) {
              case Err(_) => after.phase == Ended(Errored) && after.history == s.history
              case Ok(calls) =>
                && after.phase == Recorded(said.stop) && after.calls == calls
                && exists m ::
                     && after.history == s.history + [m] && m.role.Assistant? && m.toolCallId == None
                     && m.content == said.text && Records(cfg, m, calls)
            }
  {
    RunKeepsStream(cfg, initial, actions);
    C.FinishIsAssemble(TurnEvents(actions));
    var s := Run(cfg, initial, actions).value;
    hide Run, C.FinalizeToolCalls, C.Assemble, C.Finish, C.AbsorbAll, Initial;
    if after.phase.Recorded? {
      var m := s.phase.turn;
      assert after.history == s.history + [S.AssistantMessage(m.text, ToolRecords(cfg, after.calls))];
    }
  }

  /** While it streams, a turn pushes each text delta as it comes, numbered from zero. */
  lemma TurnsPushTheirStream(cfg: Config, initial: State, actions: seq<Action>, e: C.StreamEvent, after: State)
    requires Initial(initial) && Run(cfg, initial, actions).Some?
    requires Step(cfg, Run(cfg, initial, actions).value, Yield(e)) == Some(after)
    ensures var s, count := Run(cfg, initial, actions).value, |C.TextsOf(TurnEvents(actions))|;
            after.trace == s.trace +
              if e.TextDelta? then
                [Emission(Some(TurnId(s.turns)), None, Some(if count < U64_MAX then count else U64_MAX),
                          AssistantMessageDelta(e.delta))]
              else []
    ensures after.phase.Gathered? <==> e.TurnCompleted?
  {
    RunKeepsStream(cfg, initial, actions);
    C.FragmentsAreCounted(TurnEvents(actions));
    hide Run, C.AbsorbAll, C.Finish, TurnId, Initial;
    var s := Run(cfg, initial, actions).value;
    assert s.trace + [] == s.trace;
  }

  // Which calls run together.

  /** A batch ends where the next call may not overlap, or with the last call; a call that may runs in no other way. */
  predicate BatchInv(cfg: Config, s: State) {
    match s.phase
    case Tools(Scan(from, to)) => cfg.parallelToolCalls || from == to
    case Tools(Spawn(from, _, to)) => BatchEnds(cfg, s, from, to)
    case Tools(Join(from, _, to)) => BatchEnds(cfg, s, from, to)
    case Tools(Inline(at)) => at < |s.calls| && RunsAlone(cfg, s.calls[at])
    case _ => true
  }

  /** Without parallel calls every tool runs alone, and otherwise each known one that is not safe. */
  predicate RunsAlone(cfg: Config, call: C.Partial) {
    !cfg.parallelToolCalls || (call.name in cfg.parallelSafe && !cfg.parallelSafe[call.name])
  }

  predicate BatchEnds(cfg: Config, s: State, from: nat, to: nat) {
    && (cfg.parallelToolCalls || from == to)
    && (to >= |s.calls| || RunsAlone(cfg, s.calls[to]))
  }

  lemma BatchToolsStep(cfg: Config, s: State)
    requires BatchInv(cfg, s) && s.phase.Tools? && StepTools(cfg, s).Some?
    ensures BatchInv(cfg, StepTools(cfg, s).value)
  {
    hide PermitsTaken;
  }

  lemma BatchStep(cfg: Config, s: State, a: Action, after: State)
    requires BatchInv(cfg, s) && Step(cfg, s, a) == Some(after)
    ensures BatchInv(cfg, after)
  {
    if a.Advance? && s.phase.Tools? {
      BatchToolsStep(cfg, s);
    } else if a.Advance? {
      hide BatchEnds, StepTools;
      ScanStarts(cfg, s);
    } else if a.TaskStep? {
      TaskFrame(cfg, s, a.task, a.act);
      hide StepTask;
    } else {
      hide BatchEnds, C.Absorb, C.Finish, Q.DrainSteering, Q.DrainFollowUp, Q.Perform, S.Compacted;
    }
  }

  lemma ScanStarts(cfg: Config, s: State)
    requires StepAdvance(cfg, s).Some? && !s.phase.Tools?
    ensures var after := StepAdvance(cfg, s).value; after.phase.Tools? ==> after.phase.scheduler == Scan(0, 0)
  {
    hide C.FinalizeToolCalls, StepRepair;
    if s.phase.Repair? { RepairOpens(s); }
  }

  lemma {:induction false} RunKeepsBatches(cfg: Config, initial: State, actions: seq<Action>)
    requires Initial(initial) && Run(cfg, initial, actions).Some?
    ensures BatchInv(cfg, Run(cfg, initial, actions).value)
  {
    if actions != [] {
      var front, a := actions[..|actions| - 1], actions[|actions| - 1];
      RunKeepsBatches(cfg, initial, front);
      hide BatchInv, Step, Initial;
      BatchStep(cfg, Run(cfg, initial, front).value, a, Run(cfg, initial, actions).value);
    }
  }

  /**
   Calls that may overlap are batched as far as they go: a batch that is being spawned or joined ends where the next
   call must run alone or with the last call, and no call that may overlap ever runs alone.
   */
  lemma BatchesAreMaximal(cfg: Config, initial: State, s: State)
    requires Reachable(cfg, initial, s) && s.phase.Tools?
    ensures match s.phase.scheduler {
              case Spawn(from, _, to) => to >= |s.calls| || !MayOverlap(cfg, s.calls[to])
              case Join(from, _, to) => to >= |s.calls| || !MayOverlap(cfg, s.calls[to])
              case Inline(at) => at < |s.calls| && !MayOverlap(cfg, s.calls[at])
              case _ => true
            }
  {
    var actions :| Run(cfg, initial, actions) == Some(s);
    RunKeepsBatches(cfg, initial, actions);
  }

  /** As long as fewer than 8 tools run, the next of a batch is spawned without waiting. */
  lemma SpawnsUpToTheCap(cfg: Config, initial: State, s: State, from: nat, next: nat, to: nat)
    requires Reachable(cfg, initial, s) && s.phase == Tools(Spawn(from, next, to)) && next < to
    requires |Active(s.tasks)| < 8
    ensures next < |s.tasks|
    ensures Step(cfg, s, Advance) == Some(s.(phase := Tools(Spawn(from, next + 1, to)), tasks := s.tasks[next := Begun]))
  {
    var actions :| Run(cfg, initial, actions) == Some(s);
    RunKeepsTools(cfg, initial, actions);
    SpawnIsFree(cfg, s, from, next, to);
  }

  lemma SpawnIsFree(cfg: Config, s: State, from: nat, next: nat, to: nat)
    requires ToolsInv(cfg, s) && s.phase == Tools(Spawn(from, next, to)) && next < to && |Active(s.tasks)| < 8
    ensures next < |s.tasks|
    ensures StepAdvance(cfg, s) == Some(s.(phase := Tools(Spawn(from, next + 1, to)), tasks := s.tasks[next := Begun]))
  {
    hide Overlaps;
    var permits := set i | from <= i < to && i < |s.tasks| && IsActive(s.tasks[i]);
    forall i | i in permits ensures i in Active(s.tasks) {}
    SubsetSize(permits, Active(s.tasks));
  }

  lemma {:induction false} SubsetSize(a: set<nat>, b: set<nat>)
    requires a <= b
    ensures |a| <= |b|
    decreases b
  {
    if x :| x in b {
      SubsetSize(a - {x}, b - {x});
    } else {
      assert a == {};
    }
  }

  /** How far the scheduler has come: calls looked at, spawned, and awaited. */
  function Reached(scheduler: Scheduler): (nat, nat, nat) {
    match scheduler
    case Scan(from, to) => (to, from, from)
    case Spawn(from, next, to) => (to, next, from)
    case Join(_, next, to) => (to, to, next)
    case Inline(at) => (at + 1, at + 1, at)
  }

  function Stage(scheduler: Scheduler): nat {
    match scheduler
    case Scan(_, _) => 2
    case Spawn(_, _, _) => 1
    case Join(_, _, _) => 0
    case Inline(_) => 0
  }

  function StepsLeft(s: State, scheduler: Scheduler): int {
    var (scanned, spawned, awaited) := Reached(scheduler);
    3 * (|s.calls| - scanned) + 3 * (|s.calls| - spawned) + 3 * (|s.calls| - awaited) + Stage(scheduler)
  }

  lemma ToolsMoveOn(cfg: Config, s: State)
    requires ToolsInv(cfg, s) && s.phase.Tools? && StepTools(cfg, s).Some?
    ensures 0 <= StepsLeft(s, s.phase.scheduler) <= 9 * |s.calls| + 2
    ensures var after := StepTools(cfg, s).value;
            after.phase.Tools? ==> StepsLeft(after, after.phase.scheduler) < StepsLeft(s, s.phase.scheduler)
  {
    hide PermitsTaken, Active, Overlaps, Finished, IdleFrom, BegunIn, Batch, IsActive;
  }

  /**
   Every step of the scheduler brings the tool phase nearer to its end, so it makes no more than 9 for each call, and
   a few: it never looks at, spawns or awaits a call twice.
   */
  lemma SchedulerMovesOn(cfg: Config, initial: State, s: State, after: State)
    requires Reachable(cfg, initial, s) && s.phase.Tools? && Step(cfg, s, Advance) == Some(after) && after.phase.Tools?
    ensures after.calls == s.calls
    ensures 0 <= StepsLeft(after, after.phase.scheduler) < StepsLeft(s, s.phase.scheduler) <= 9 * |s.calls| + 2
  {
    var actions :| Run(cfg, initial, actions) == Some(s);
    RunKeepsTools(cfg, initial, actions);
    ToolsFrame(cfg, s);
    ToolsMoveOn(cfg, s);
    StepToolsKeeps(cfg, s);
    hide Run, Reachable, StepTools;
    LeftIsNeverNegative(cfg, after);
  }

  lemma LeftIsNeverNegative(cfg: Config, s: State)
    requires ToolsInv(cfg, s) && s.phase.Tools?
    ensures 0 <= StepsLeft(s, s.phase.scheduler)
  {
  }

  // When runs fail.

  /** The task that the scheduler waits for has failed, or it meets a tool that the registry does not know. */
  predicate ToolsFail(cfg: Config, s: State, scheduler: Scheduler) {
    match scheduler
    case Scan(_, i) => i < |s.calls| && cfg.parallelToolCalls && s.calls[i].name !in cfg.parallelSafe
    case Spawn(_, _, _) => false
    case Join(_, next, to) => next < to && next < |s.tasks| && s.tasks[next].Done? && s.tasks[next].result.Err?
    case Inline(i) => i < |s.tasks| && s.tasks[i].Done? && s.tasks[i].result.Err?
  }

  /** Why a step ends a run with an error. */
  predicate Fails(cfg: Config, s: State, a: Action) {
    match a
    case Loop(cancelled, _) => cancelled && s.turns < 32
    case StreamFails(contextLimit) => !contextLimit || Trailing(s.kinds) >= 5
    case Advance =>
      (match s.phase
       case Gathered(turn) => C.FinalizeToolCalls(cfg.parses, turn).Err?
       case Settled(stop) => s.calls == [] && stop.MaxTokens? && SinceTools(s.kinds) >= 3
       case Starting(next) => next < |s.calls| && IsBlank(s.calls[next].id)
       case Tools(scheduler) => ToolsFail(cfg, s, scheduler)
       case _ => false)
    case Abort => true
    case _ => false
  }

  lemma ToolsFailExactly(cfg: Config, s: State)
    requires ToolsInv(cfg, s) && s.phase.Tools? && StepTools(cfg, s).Some?
    ensures StepTools(cfg, s).value.phase == Ended(Errored) <==> ToolsFail(cfg, s, s.phase.scheduler)
  {
    hide PermitsTaken, Active;
  }

  lemma AdvanceFailsExactly(cfg: Config, s: State)
    requires ToolsInv(cfg, s) && BoundsInv(s) && StepAdvance(cfg, s).Some?
    ensures StepAdvance(cfg, s).value.phase == Ended(Errored) <==> Fails(cfg, s, Advance)
  {
    if s.phase.Tools? { ToolsFailExactly(cfg, s); }
    if s.phase.Starting? { StartingFailsExactly(cfg, s); }
    hide C.FinalizeToolCalls, StepTools, StepRepair, StepStarting, ToolsInv, ToolsFail, IsBlank;
    if s.phase.Repair? { RepairOpens(s); }
  }

  lemma StartingFailsExactly(cfg: Config, s: State)
    requires ToolsInv(cfg, s) && s.phase.Starting? && StepStarting(cfg, s).Some?
    ensures StepStarting(cfg, s).value.phase == Ended(Errored) <==>
            s.phase.next < |s.calls| && IsBlank(s.calls[s.phase.next].id)
  {
    hide IsBlank;
  }

  lemma StepFailsExactly(cfg: Config, s: State, a: Action, after: State)
    requires ToolsInv(cfg, s) && BoundsInv(s) && !s.phase.Ended? && Step(cfg, s, a) == Some(after)
    ensures after.phase == Ended(Errored) <==> Fails(cfg, s, a)
  {
    hide ToolsInv, StepAdvance, StepTask, C.Absorb, C.Finish, Q.DrainSteering, Q.DrainFollowUp, Q.Perform, S.Compacted;
    match a {
      case Advance => AdvanceFailsExactly(cfg, s);
      case TaskStep(i, act) => TaskFrame(cfg, s, i, act);
      case _ =>
    }
  }

  /**
   A step of any run ends it with an error for one of these reasons and no other: it was cancelled before its 32nd
   turn was over, its stream failed and could not be compacted for, a call's input cannot be parsed, it was cut off
   once too often, a call has no id, a tool is unknown or has failed, or something outside the loop failed.
   */
  lemma RunsFailExactlyWhen(cfg: Config, initial: State, s: State, a: Action, after: State)
    requires Reachable(cfg, initial, s) && !s.phase.Ended? && Step(cfg, s, a) == Some(after)
    ensures after.phase == Ended(Errored) <==> Fails(cfg, s, a)
  {
    var actions :| Run(cfg, initial, actions) == Some(s);
    RunKeepsTools(cfg, initial, actions);
    RunKeepsBounds(cfg, initial, actions);
    hide Run, Reachable, Step, Fails, ToolsInv, BoundsInv;
    StepFailsExactly(cfg, s, a, after);
  }
}
