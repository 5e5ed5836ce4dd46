/**
 What one tool call goes through (`execute_tool_call` of crates/taugentic-agent/src/turn_loop.rs): its dialogue
 with the policy, the approver and the tool, read off the actions of a run, and what it adds to the trace.
 */
module AgentLoopTasks {
  import opened Prelude
  import opened Wire
  import opened AgentLoop
  import opened AgentLoopTools
  import opened AgentLoopFrames
  import S = Session
  import Q = Queues
  import C = Collector

  /** What happened to task `i` of the current turn, in order. */
  function ActsOf(cfg: Config, initial: State, actions: seq<Action>, i: nat): seq<TaskAct> {
    if actions == [] then []
    else
      var front, a := actions[..|actions| - 1], actions[|actions| - 1];
      var before, after := Run(cfg, initial, front), Run(cfg, initial, actions);
      if before.None? || after.None? || after.value.turns != before.value.turns then []
      else ActsOf(cfg, initial, front, i) + if a.TaskStep? && a.task == i then [a.act] else []
  }

  /** The policy or the approver let the tool run. */
  predicate Allowed(acts: seq<TaskAct>) {
    acts == [PolicyAllows] || acts == [AsksApproval, ApprovalAllows]
  }

  predicate Denied(acts: seq<TaskAct>, content: string) {
    acts == [PolicyDenies(content)]
  }

  /** The tool was allowed, ran, and ended like this. */
  predicate Ran(acts: seq<TaskAct>, content: string, outcome: ToolOutcome) {
    |acts| > 0 && Allowed(acts[..|acts| - 1]) && acts[|acts| - 1] == ToolFinishes(content, outcome)
  }

  /** The dialogue that has brought a task where it stands; `known` if the registry has its tool. */
  predicate Dialogue(known: bool, id: string, acts: seq<TaskAct>, t: Task) {
    match t
    case Idle => acts == []
    case Begun => acts == []
    case Waiting => known && acts == [AsksApproval]
    case Running => known && Allowed(acts)
    case Done(Ok(result)) =>
      && known && result.callId == id
      && (|| (Denied(acts, result.content) && result.outcome == ToolOutcome.Failed)
          || Ran(acts, result.content, result.outcome))
    case Done(Err(_)) =>
      || (known && acts == [AsksApproval, ApprovalRefuses])
      || (|acts| > 0 && acts[|acts| - 1].TaskErrors?
          && (|acts| == 1 || (known && (acts[..|acts| - 1] == [AsksApproval] || Allowed(acts[..|acts| - 1])))))
  }

  predicate DialogueOf(cfg: Config, s: State, i: nat, acts: seq<TaskAct>) {
    if i < |s.tasks| && i < |s.calls| then Dialogue(s.calls[i].name in cfg.parallelSafe, s.calls[i].id, acts, s.tasks[i])
    else acts == []
  }

  lemma TaskStepDialogue(cfg: Config, s: State, i: nat, act: TaskAct, acts: seq<TaskAct>)
    requires i < |s.tasks| == |s.calls| == |s.pushed| && StepTask(cfg, s, i, act).Some? && DialogueOf(cfg, s, i, acts)
    ensures DialogueOf(cfg, StepTask(cfg, s, i, act).value, i, acts + [act])
  {
    var longer := acts + [act];
    assert longer[..|longer| - 1] == acts && longer[|longer| - 1] == act;
    assert [AsksApproval] + [ApprovalAllows] == [AsksApproval, ApprovalAllows];
    assert [AsksApproval] + [ApprovalRefuses] == [AsksApproval, ApprovalRefuses];
    assert [] + [act] == [act];
  }

  /** Steps that do not end a task's wait leave its dialogue as it was, or begin it. */
  lemma QuietDialogue(cfg: Config, s: State, after: State, i: nat, acts: seq<TaskAct>)
    requires DialogueOf(cfg, s, i, acts)
    requires after.calls == s.calls && |after.tasks| == |s.tasks|
    requires i < |s.tasks| ==> after.tasks[i] == s.tasks[i] || (s.tasks[i].Idle? && after.tasks[i].Begun?)
    ensures DialogueOf(cfg, after, i, acts)
  {
  }

  /** The steps of the loop itself, as the tasks see them. */
  lemma AdvanceKeepsTasks(cfg: Config, s: State, after: State, i: nat)
    requires ToolsInv(cfg, s) && StepAdvance(cfg, s) == Some(after) && !s.phase.Gathered?
    ensures after.turns == s.turns && after.calls == s.calls && |after.tasks| == |s.tasks|
    ensures i < |s.tasks| ==> after.tasks[i] == s.tasks[i] || (s.tasks[i].Idle? && after.tasks[i].Begun?)
  {
    if s.phase.Tools? {
      ToolsFrame(cfg, s);
      SchedulerFrame(cfg, s);
    }
    hide StepTools, StepRepair, ToolsInv;
    if s.phase.Repair? { RepairKeepsTasks(s); }
  }

  lemma RepairKeepsTasks(s: State)
    ensures var after := StepRepair(s); after.turns == s.turns && after.calls == s.calls && after.tasks == s.tasks
  {
  }

  lemma GatheredDialogue(cfg: Config, s: State, i: nat, acts: seq<TaskAct>)
    requires s.phase.Gathered? && PushedInv(s) && DialogueOf(cfg, s, i, acts)
    ensures DialogueOf(cfg, StepGathered(cfg, s), i, acts) && StepGathered(cfg, s).turns == s.turns
  {
    hide C.FinalizeToolCalls;
  }

  lemma TopDialogue(cfg: Config, s: State, cancelled: bool, fetched: seq<S.Message>, i: nat, acts: seq<TaskAct>)
    requires s.phase.Top? && DialogueOf(cfg, s, i, acts)
    ensures var after := StepTop(s, cancelled, fetched);
            DialogueOf(cfg, after, i, if after.turns != s.turns then [] else acts)
  {
  }

  lemma OtherStepKeepsTasks(cfg: Config, s: State, a: Action, after: State)
    requires Step(cfg, s, a) == Some(after) && !a.Loop? && !a.Advance? && !a.TaskStep?
    ensures after.turns == s.turns && after.calls == s.calls && after.tasks == s.tasks
  {
    hide C.Absorb, C.Finish, Q.DrainFollowUp, Q.Perform;
  }

  lemma DialogueStep(cfg: Config, s: State, a: Action, after: State, i: nat, acts: seq<TaskAct>)
    requires PushedInv(s) && ToolsInv(cfg, s) && Step(cfg, s, a) == Some(after) && DialogueOf(cfg, s, i, acts)
    ensures DialogueOf(cfg, after, i, if after.turns != s.turns then []
                                      else acts + if a.TaskStep? && a.task == i then [a.act] else [])
  {
    hide PushedInv, ToolsInv, DialogueOf, StepTop, StepAdvance, StepTask;
    assert acts + [] == acts;
    match a {
      case Loop(cancelled, fetched) => TopDialogue(cfg, s, cancelled, fetched, i, acts);
      case Advance =>
        if s.phase.Gathered? {
          AdvanceGathers(cfg, s);
          GatheredDialogue(cfg, s, i, acts);
        } else {
          AdvanceKeepsTasks(cfg, s, after, i);
          QuietDialogue(cfg, s, after, i, acts);
        }
      case TaskStep(j, act) =>
        TaskFrame(cfg, s, j, act);
        if i == j { TaskStepDialogue(cfg, s, i, act, acts); } else { QuietDialogue(cfg, s, after, i, acts); }
      case _ =>
        OtherStepKeepsTasks(cfg, s, a, after);
        QuietDialogue(cfg, s, after, i, acts);
    }
  }

  lemma AdvanceGathers(cfg: Config, s: State)
    requires s.phase.Gathered?
    ensures StepAdvance(cfg, s) == Some(StepGathered(cfg, s))
  {
    hide StepGathered;
  }

  /**
   In every interleaving, what a call is and has come to is what its dialogue says: a tool that has run was first
   allowed by the policy or, once asked, by the approver; its result is what the tool said, in content and outcome,
   or the denial, as a failure; a refused approval runs nothing.
   */
  lemma {:induction false} CallsFollowTheirDialogue(cfg: Config, initial: State, actions: seq<Action>, i: nat)
    requires Initial(initial) && Run(cfg, initial, actions).Some?
    ensures DialogueOf(cfg, Run(cfg, initial, actions).value, i, ActsOf(cfg, initial, actions, i))
  {
    hide PushedInv, ToolsInv, DialogueOf, Step, FramesInv;
    if actions != [] {
      var front, a := actions[..|actions| - 1], actions[|actions| - 1];
      CallsFollowTheirDialogue(cfg, initial, front, i);
      RunKeepsTools(cfg, initial, front);
      RunIsPushed(cfg, initial, front);
      DialogueStep(cfg, Run(cfg, initial, front).value, a, Run(cfg, initial, actions).value, i,
                   ActsOf(cfg, initial, front, i));
    } else {
      NoDialogueYet(cfg, initial, i);
    }
  }

  lemma NoDialogueYet(cfg: Config, initial: State, i: nat)
    requires Initial(initial)
    ensures DialogueOf(cfg, initial, i, [])
  {
  }

  lemma RunIsPushed(cfg: Config, initial: State, actions: seq<Action>)
    requires Initial(initial) && Run(cfg, initial, actions).Some?
    ensures PushedInv(Run(cfg, initial, actions).value)
  {
    var r := Recorder("", "", n => n, n => n);
    RunKeepsFrames(cfg, r, initial, actions);
    PushedOf(r, Run(cfg, initial, actions).value);
  }

  /** Each answer that a task can be given at a point is taken there, and no other; an unknown tool only errs. */
  lemma TasksTakeTheirAnswers(cfg: Config, s: State, i: nat, act: TaskAct)
    requires i < |s.tasks| == |s.calls| == |s.pushed|
    ensures Step(cfg, s, TaskStep(i, act)).Some? <==>
            match s.tasks[i] {
              case Begun =>
                act.TaskErrors? || (s.calls[i].name in cfg.parallelSafe &&
                                    (act.PolicyDenies? || act.PolicyAllows? || act.AsksApproval?))
              case Waiting => act.ApprovalAllows? || act.ApprovalRefuses? || act.TaskErrors?
              case Running => act.ToolFinishes? || act.TaskErrors?
              case _ => false
            }
  {
  }

  /** What the loop waits for from outside it takes in whatever form it comes. */
  lemma EventsAreTaken(cfg: Config, s: State, a: Action)
    ensures a.Loop? ==> (Step(cfg, s, a).Some? <==> s.phase.Top?)
    ensures a.StreamOpens? ==> (Step(cfg, s, a).Some? <==> s.phase.Opening?)
    ensures a.Yield? || a.StreamCloses? ==> (Step(cfg, s, a).Some? <==> s.phase.Streaming?)
    ensures a.StreamFails? ==> (Step(cfg, s, a).Some? <==> s.phase.Opening? || s.phase.Streaming?)
    ensures a.FollowUp? ==> (Step(cfg, s, a).Some? <==> s.phase.Settled? && s.calls == [] && !s.phase.stop.MaxTokens?)
    ensures a.Abort? ==> (Step(cfg, s, a).Some? <==> !s.phase.Ended?)
  {
    hide StepAdvance, StepTask, StepTop, StepYield, StepStreamFails, Q.DrainFollowUp, Q.Perform;
  }

  /** So each result of a turn is what its own call's tool said, or the denial of the policy. */
  lemma ResultsAreWhatToolsSaid(cfg: Config, initial: State, actions: seq<Action>, k: nat)
    requires Initial(initial) && Run(cfg, initial, actions).Some?
    requires var s := Run(cfg, initial, actions).value; s.phase.Reporting? && k < |s.results|
    ensures var s := Run(cfg, initial, actions).value;
            && k < |s.calls| && s.results[k].callId == s.calls[k].id && s.calls[k].name in cfg.parallelSafe
            && (|| (Denied(ActsOf(cfg, initial, actions, k), s.results[k].content) && s.results[k].outcome.Failed?)
                || Ran(ActsOf(cfg, initial, actions, k), s.results[k].content, s.results[k].outcome))
  {
    RunKeepsTools(cfg, initial, actions);
    CallsFollowTheirDialogue(cfg, initial, actions, k);
    hide Run, ActsOf, Ran, Denied;
  }
}
