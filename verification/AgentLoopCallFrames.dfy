/** What the frames of a tool call say: its name and input when it starts, its wait, its output and outcome. */
module AgentLoopCallFrames {
  import opened Prelude
  import opened Wire
  import opened AgentLoop
  import opened AgentLoopTools
  import opened AgentLoopFrames
  import opened AgentLoopRows
  import opened AgentLoopTasks
  import S = Session
  import Q = Queues
  import C = Collector

  function StartFrame(cfg: Config, s: State, call: C.Partial): Emission {
    Emission(Some(TurnId(s.turns)), Some(call.id), None, ToolCallStarted(call.name, cfg.render(call.input)))
  }

  function WaitFrame(id: string): Emission {
    Emission(None, Some(id), None, PendingStateChanged(WaitingForApproval))
  }

  function OutputFrame(s: State, result: ToolResult): Emission {
    Emission(Some(TurnId(s.turns)), Some(result.callId), Some(0), ToolCallProgressed(result.content))
  }

  function OutcomeFrame(s: State, id: string, outcome: ToolOutcome): Emission {
    Emission(Some(TurnId(s.turns)), Some(id), None, ToolCallCompleted(outcome))
  }

  /** The results whose output, and whose outcome, has been pushed. */
  function OutputsPushed(p: Phase): nat {
    match p
    case Reporting(at, PushCompletion) => at + 1
    case Reporting(at, _) => at
    case _ => 0
  }

  function OutcomesPushed(p: Phase): nat {
    if p.Reporting? then p.at else 0
  }

  /** Each call that was started, asked for, refused or reported in this turn has its frames. */
  predicate CallFrames(cfg: Config, s: State) {
    && |s.pushed| == |s.calls|
    && (forall k | 0 <= k < |s.calls| && !s.pushed[k].Unstarted? ::
          !IsBlank(s.calls[k].id) && StartFrame(cfg, s, s.calls[k]) in s.trace)
    && (forall k | 0 <= k < |s.calls| && k < |s.tasks| && s.tasks[k].Waiting? :: WaitFrame(s.calls[k].id) in s.trace)
    && (forall k | 0 <= k < |s.results| && k < OutputsPushed(s.phase) :: OutputFrame(s, s.results[k]) in s.trace)
    && (forall k | 0 <= k < |s.results| && k < OutcomesPushed(s.phase) ::
          OutcomeFrame(s, s.results[k].callId, s.results[k].outcome) in s.trace)
    && (forall id | id in s.refused :: OutcomeFrame(s, id, ToolOutcome.Cancelled) in s.trace)
  }

  /** Steps that start, ask for and report nothing. */
  lemma QuietCallFrames(cfg: Config, s: State, after: State)
    requires CallFrames(cfg, s) && after.turns == s.turns && after.calls == s.calls && s.trace <= after.trace
    requires |after.pushed| == |s.pushed| && after.refused == s.refused
    requires forall k | 0 <= k < |s.pushed| && !after.pushed[k].Unstarted? :: !s.pushed[k].Unstarted?
    requires forall k | 0 <= k < |after.tasks| && after.tasks[k].Waiting? :: k < |s.tasks| && s.tasks[k].Waiting?
    requires OutputsPushed(after.phase) == OutcomesPushed(after.phase) == 0
          || (OutputsPushed(after.phase) == OutputsPushed(s.phase) && OutcomesPushed(after.phase) == OutcomesPushed(s.phase)
              && after.results == s.results)
    ensures CallFrames(cfg, after)
  {
    hide IsBlank, StartFrame, WaitFrame, OutputFrame, OutcomeFrame, OutputsPushed, OutcomesPushed;
    assert forall e | e in s.trace :: e in after.trace;
    SameFrames(cfg, s, after);
  }

  lemma SameFrames(cfg: Config, s: State, after: State)
    requires after.turns == s.turns
    ensures forall call :: StartFrame(cfg, after, call) == StartFrame(cfg, s, call)
    ensures forall result :: OutputFrame(after, result) == OutputFrame(s, result)
    ensures forall id, outcome :: OutcomeFrame(after, id, outcome) == OutcomeFrame(s, id, outcome)
  {
  }

  /** A step that pushes one frame for call or result `k`, and says so. */
  lemma PushedCallFrames(cfg: Config, s: State, after: State, e: Emission, k: nat)
    requires CallFrames(cfg, s) && after.turns == s.turns && after.calls == s.calls && after.trace == s.trace + [e]
    requires |after.pushed| == |s.pushed| && after.results == s.results
    requires forall i | 0 <= i < |s.pushed| && !after.pushed[i].Unstarted? && s.pushed[i].Unstarted? ::
               !IsBlank(s.calls[i].id) && e == StartFrame(cfg, s, s.calls[i])
    requires forall i | 0 <= i < |after.tasks| && i < |s.calls| && after.tasks[i].Waiting? ::
               (i < |s.tasks| && s.tasks[i].Waiting?) || e == WaitFrame(s.calls[i].id)
    requires forall i | OutputsPushed(s.phase) <= i < OutputsPushed(after.phase) && i < |s.results| ::
               e == OutputFrame(s, s.results[i])
    requires forall i | OutcomesPushed(s.phase) <= i < OutcomesPushed(after.phase) && i < |s.results| ::
               e == OutcomeFrame(s, s.results[i].callId, s.results[i].outcome)
    requires forall id | id in after.refused :: id in s.refused || e == OutcomeFrame(s, id, ToolOutcome.Cancelled)
    ensures CallFrames(cfg, after)
  {
    hide IsBlank, StartFrame, WaitFrame, OutputFrame, OutcomeFrame, OutputsPushed, OutcomesPushed;
    assert e in after.trace && forall x | x in s.trace :: x in after.trace;
    SameFrames(cfg, s, after);
  }

  lemma StartingCallFrames(cfg: Config, s: State)
    requires CallFrames(cfg, s) && PushedInv(s) && s.phase.Starting? && StepStarting(cfg, s).Some?
    ensures CallFrames(cfg, StepStarting(cfg, s).value)
  {
    var after, i := StepStarting(cfg, s).value, s.phase.next;
    if i < |s.calls| && !IsBlank(s.calls[i].id) {
      hide CallFrames, IsBlank, TurnId;
      PushedCallFrames(cfg, s, after, StartFrame(cfg, s, s.calls[i]), i);
    } else {
      hide CallFrames, IsBlank;
      QuietCallFrames(cfg, s, after);
    }
  }

  lemma TaskCallFrames(cfg: Config, s: State, i: nat, act: TaskAct)
    requires CallFrames(cfg, s) && PushedInv(s) && ToolsInv(cfg, s) && i < |s.tasks| && StepTask(cfg, s, i, act).Some?
    ensures CallFrames(cfg, StepTask(cfg, s, i, act).value)
  {
    var after := StepTask(cfg, s, i, act).value;
    TaskFrame(cfg, s, i, act);
    TaskPushes(cfg, s, i, act);
    ActiveOnlyInTools(cfg, s, i);
    TaskWaits(cfg, s, i, act);
    hide StepTask, CallFrames, TurnId, PushedInv, ToolsInv;
    if after.trace == s.trace {
      QuietCallFrames(cfg, s, after);
    } else {
      PushedCallFrames(cfg, s, after, after.trace[|s.trace|], i);
    }
  }

  lemma TaskWaits(cfg: Config, s: State, i: nat, act: TaskAct)
    requires i < |s.tasks| == |s.calls| == |s.pushed| && StepTask(cfg, s, i, act).Some?
    ensures StepTask(cfg, s, i, act).value.tasks[i].Waiting? ==>
              act.AsksApproval? && StepTask(cfg, s, i, act).value.trace == s.trace + [WaitFrame(s.calls[i].id)]
  {
  }

  lemma ReportingCallFrames(cfg: Config, s: State)
    requires CallFrames(cfg, s) && PushedInv(s) && s.phase.Reporting? && StepReporting(s).Some?
    ensures CallFrames(cfg, StepReporting(s).value)
  {
    var after, i := StepReporting(s).value, s.phase.at;
    hide CallFrames, TurnId;
    if i < |s.results| && s.phase.stage.PushProgress? {
      PushedCallFrames(cfg, s, after, OutputFrame(s, s.results[i]), i);
    } else if i < |s.results| && s.phase.stage.PushCompletion? {
      PushedCallFrames(cfg, s, after, OutcomeFrame(s, s.results[i].callId, s.results[i].outcome), i);
    } else {
      QuietCallFrames(cfg, s, after);
    }
  }

  lemma GatheredCallFrames(cfg: Config, s: State)
    requires CallFrames(cfg, s) && RefusedInv(s) && s.phase.Gathered?
    ensures CallFrames(cfg, StepGathered(cfg, s))
  {
    hide C.FinalizeToolCalls, StartFrame, WaitFrame, IsBlank;
    var after := StepGathered(cfg, s);
    if after.phase.Ended? {
      hide StepGathered, CallFrames;
      QuietCallFrames(cfg, s, after);
    }
  }

  lemma TopCallFrames(cfg: Config, s: State, cancelled: bool, fetched: seq<S.Message>)
    requires CallFrames(cfg, s) && RefusedInv(s) && s.phase.Top?
    ensures CallFrames(cfg, StepTop(s, cancelled, fetched))
  {
    var after := StepTop(s, cancelled, fetched);
    if after.phase.Ended? { QuietCallFrames(cfg, s, after); }
  }

  lemma AdvanceCallFrames(cfg: Config, s: State, after: State)
    requires CallFrames(cfg, s) && PushedInv(s) && ToolsInv(cfg, s) && RefusedInv(s) && StepAdvance(cfg, s) == Some(after)
    ensures CallFrames(cfg, after)
  {
    AdvanceGrows(cfg, s, after);
    hide CallFrames, ToolsInv, RefusedInv, StepRepair, StepGathered, StepStarting, StepTools, StepReporting, StepSettled;
    match s.phase {
      case Gathered(_) => GatheredCallFrames(cfg, s);
      case Starting(_) => StartingCallFrames(cfg, s);
      case Reporting(_, _) => ReportingCallFrames(cfg, s);
      case _ =>
        hide PushedInv;
        OtherPhasesReportNothing(cfg, s, after);
        QuietCallFrames(cfg, s, after);
    }
  }

  lemma OtherPhasesReportNothing(cfg: Config, s: State, after: State)
    requires ToolsInv(cfg, s) && StepAdvance(cfg, s) == Some(after)
    requires !s.phase.Gathered? && !s.phase.Starting? && !s.phase.Reporting?
    ensures after.turns == s.turns && after.calls == s.calls && after.pushed == s.pushed && after.refused == s.refused
    ensures OutputsPushed(after.phase) == OutcomesPushed(after.phase) == 0
    ensures forall k | 0 <= k < |after.tasks| && after.tasks[k].Waiting? :: k < |s.tasks| && s.tasks[k].Waiting?
  {
    if s.phase.Tools? {
      ToolsFrame(cfg, s);
      SchedulerFrame(cfg, s);
    }
    hide StepTools, StepRepair, ToolsInv;
    if s.phase.Repair? { RepairPushesNothing(s); }
  }

  lemma RepairPushesNothing(s: State)
    ensures var after := StepRepair(s);
            after.turns == s.turns && after.calls == s.calls && after.pushed == s.pushed && after.tasks == s.tasks
            && after.phase.Opening? && after.refused == s.refused
  {
  }

  lemma OthersReportNothing(cfg: Config, s: State, a: Action, after: State)
    requires Step(cfg, s, a) == Some(after) && !a.Loop? && !a.Advance? && !a.TaskStep?
    ensures after.turns == s.turns && after.calls == s.calls && after.pushed == s.pushed && after.tasks == s.tasks
    ensures after.refused == s.refused
    ensures OutputsPushed(after.phase) == OutcomesPushed(after.phase) == 0
  {
    hide C.Absorb, C.Finish, Q.DrainFollowUp, Q.Perform, S.Compacted;
  }

  lemma StepKeepsCallFrames(cfg: Config, s: State, a: Action, after: State)
    requires CallFrames(cfg, s) && PushedInv(s) && ToolsInv(cfg, s) && RefusedInv(s) && Step(cfg, s, a) == Some(after)
    ensures CallFrames(cfg, after)
  {
    TraceGrows(cfg, s, a, after);
    hide CallFrames, PushedInv, ToolsInv, RefusedInv, StepTop, StepAdvance, StepTask;
    match a {
      case Loop(cancelled, fetched) => TopCallFrames(cfg, s, cancelled, fetched);
      case Advance => AdvanceCallFrames(cfg, s, after);
      case TaskStep(i, act) => TaskCallFrames(cfg, s, i, act);
      case _ =>
        OthersReportNothing(cfg, s, a, after);
        QuietCallFrames(cfg, s, after);
    }
  }

  /**
   In every run, each call started in the current turn has an id and a frame with its own name and rendered input,
   each call that waits has a frame that says so, each result reported has frames with its output and outcome, and
   each call whose approval was refused one that cancels it.
   */
  lemma {:induction false} FramesTellTheCalls(cfg: Config, initial: State, actions: seq<Action>)
    requires Initial(initial) && Run(cfg, initial, actions).Some?
    ensures CallFrames(cfg, Run(cfg, initial, actions).value) && RefusedInv(Run(cfg, initial, actions).value)
  {
    hide PushedInv, ToolsInv, Step;
    if actions != [] {
      var front, a := actions[..|actions| - 1], actions[|actions| - 1];
      FramesTellTheCalls(cfg, initial, front);
      RunKeepsTools(cfg, initial, front);
      RunIsPushed(cfg, initial, front);
      hide CallFrames, RefusedInv, Initial;
      RefusedStep(cfg, Run(cfg, initial, front).value, a, Run(cfg, initial, actions).value);
      StepKeepsCallFrames(cfg, Run(cfg, initial, front).value, a, Run(cfg, initial, actions).value);
    }
  }
}
