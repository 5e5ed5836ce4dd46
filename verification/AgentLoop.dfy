/**
 The native agent turn loop (crates/taugentic-agent/src/turn_loop.rs) as a transition function.

 The loop is one task that shares its sink with the tool tasks it spawns, so a run is a sequence of
 atomic steps. Each step of the loop pushes at most one frame and does so last: an error return at
 any point (`Abort`) therefore falls between two steps. Everything the loop does not decide itself
 (model replies, tool outcomes, approvals, cancellation, fetched messages) is in the action.
 */
module AgentLoop {
  import opened Prelude
  import opened Wire
  import opened S = Session
  import Q = Queues
  import C = Collector

  const MAX_TURNS: nat := 32
  const MAX_CONTEXT_LIMIT_RETRIES: nat := 5
  const MAX_INCOMPLETE_CONTINUATION_ATTEMPTS: nat := 3
  const MAX_CONCURRENT_TOOLS: nat := 8

  /** The registry, the client's capability, and the JSON library. */
  datatype Config = Config(
    parallelSafe: map<string, bool>,
    parallelToolCalls: bool,
    parses: string -> bool,
    render: string -> string)

  datatype ToolResult = ToolResult(callId: string, content: string, outcome: ToolOutcome)

  /** One execution of `execute_tool_call`. */
  datatype Task = Idle | Begun | Waiting | Running | Done(result: Result<ToolResult, string>)

  /** The lifecycle frames pushed so far for one call of the current turn. */
  datatype Pushed = Unstarted | Started | Terminal

  /** Where the batching scheduler stands; calls `from..to` form the current parallel batch. */
  datatype Scheduler =
    | Scan(from: nat, to: nat)
    | Spawn(from: nat, next: nat, to: nat)
    | Join(from: nat, next: nat, to: nat)
    | Inline(at: nat)

  datatype ReportStage = AppendResult | PushProgress | PushCompletion

  datatype End = Succeeded(reason: string) | Errored

  datatype Phase =
    | Top
    | Announce
    | Repair
    | Opening
    | Streaming(gathering: C.Gathering)
    | Gathered(turn: C.Collected)
    | Recorded(stop: C.StopReason)
    | Settled(stop: C.StopReason)
    | Starting(next: nat)
    | Tools(scheduler: Scheduler)
    | Reporting(at: nat, stage: ReportStage)
    | Ended(end: End)

  /** How a turn that did not end the run was left. */
  datatype TurnKind = Compacted | Continued | Followed | UsedTools

  datatype State = State(
    phase: Phase,
    turns: nat,
    contextRetries: nat,
    continuationRetries: nat,
    history: seq<Message>,
    ledger: Q.Ledger,
    calls: seq<C.Partial>,
    tasks: seq<Task>,
    pushed: seq<Pushed>,
    results: seq<ToolResult>,
    // Records of what happened, which no step reads.
    trace: seq<Emission>,
    requests: seq<seq<Message>>,
    spoken: seq<Message>,
    markers: nat,
    kinds: seq<TurnKind>,
    turnOpen: bool,
    abandoned: set<nat>,
    refused: seq<string>)

  datatype TaskAct =
    | PolicyDenies(content: string)
    | PolicyAllows
    | AsksApproval
    | ApprovalAllows
    | ApprovalRefuses
    | ToolFinishes(content: string, outcome: ToolOutcome)
    | TaskErrors(error: string)

  datatype Action =
    | Loop(cancelled: bool, fetched: seq<Message>)
    | Advance
    | StreamOpens
    | Yield(event: C.StreamEvent)
    | StreamCloses
    | StreamFails(contextLimit: bool)
    | FollowUp(fetched: seq<Message>)
    | TaskStep(task: nat, act: TaskAct)
    | Abort

  function TurnId(turn: nat): string {
    "turn-" + Decimal(turn)
  }

  function LoopFrame(turn: nat, item: Option<string>, fragment: Option<nat>, frame: Frame): Emission {
    Emission(Some(TurnId(turn)), item, fragment, frame)
  }

  function Push(s: State, e: Emission): State {
    s.(trace := s.trace + [e])
  }

  function ToolRecords(cfg: Config, calls: seq<C.Partial>): seq<CallRecord> {
    seq(|calls|, i requires 0 <= i < |calls| => CallRecord(calls[i].id, calls[i].name, cfg.render(calls[i].input)))
  }

  /** The top of the loop: drain steering, then stop at the turn limit or on cancellation. */
  function StepTop(s: State, cancelled: bool, fetched: seq<Message>): State {
    var drained :=
      if s.turns > 0 then
        s.(ledger := Q.Perform(s.ledger, Q.OpDrainSteering(fetched)),
           history := s.history + Q.DrainSteering(s.ledger.queue, fetched).1)
      else s;
    if s.turns >= MAX_TURNS then drained.(phase := Ended(Succeeded("max turns reached")))
    else if cancelled then drained.(phase := Ended(Errored))
    else
      drained.(phase := Announce, turns := s.turns + 1, calls := [], tasks := [], pushed := [], results := [])
  }

  function StepRepair(s: State): State {
    var repaired := Repaired(s.history);
    s.(phase := Opening, history := repaired, markers := s.markers + |Missing(s.history)|,
       requests := s.requests + [repaired])
  }

  function StepYield(s: State, e: C.StreamEvent): State
    requires s.phase.Streaming?
  {
    var g := C.Absorb(s.phase.gathering, e);
    if e.TurnCompleted? then s.(phase := Gathered(C.Finish(g)))
    else if e.TextDelta? then
      Push(s.(phase := Streaming(g)), C.DeltaFrame(TurnId(s.turns), s.phase.gathering.fragment, e.delta))
    else s.(phase := Streaming(g))
  }

  /** `compact_after_context_limit` */
  function StepStreamFails(s: State, contextLimit: bool): State {
    if contextLimit && s.contextRetries < MAX_CONTEXT_LIMIT_RETRIES then
      s.(phase := Top, contextRetries := s.contextRetries + 1, history := S.Compacted(s.history),
         kinds := s.kinds + [Compacted], turnOpen := false, abandoned := s.abandoned + {s.turns})
    else s.(phase := Ended(Errored))
  }

  function StepGathered(cfg: Config, s: State): State
    requires s.phase.Gathered?
  {
    var turn := s.phase.turn;
    match C.FinalizeToolCalls(cfg.parses, turn)
    case Err(_) => s.(phase := Ended(Errored), contextRetries := 0)
    case Ok(calls) =>
      var message := AssistantMessage(turn.text, ToolRecords(cfg, calls));
      s.(phase := Recorded(turn.stop), contextRetries := 0,
         history := s.history + [message],
         spoken := s.spoken + [message],
         calls := calls,
         tasks := seq(|calls|, _ => Idle),
         pushed := seq(|calls|, _ => Unstarted))
  }

  /** After the turn's completion frame, when the turn calls tools or was cut off. */
  function StepSettled(s: State): Option<State>
    requires s.phase.Settled?
  {
    if s.calls != [] then
      Some(s.(phase := Starting(0), continuationRetries := 0, kinds := s.kinds + [UsedTools]))
    else if s.phase.stop.MaxTokens? then
      if s.continuationRetries < MAX_INCOMPLETE_CONTINUATION_ATTEMPTS then
        Some(s.(phase := Top, continuationRetries := s.continuationRetries + 1, kinds := s.kinds + [Continued]))
      else Some(s.(phase := Ended(Errored)))
    else None
  }

  /** After the turn's completion frame, when there is nothing left to do but follow-ups. */
  function StepFollowUp(s: State, fetched: seq<Message>): Option<State>
    requires s.phase.Settled?
  {
    if s.calls == [] && !s.phase.stop.MaxTokens? then
      var delivered := Q.DrainFollowUp(s.ledger.queue, fetched).1;
      var drained :=
        s.(ledger := Q.Perform(s.ledger, Q.OpDrainFollowUp(fetched)), history := s.history + delivered);
      if delivered != [] then Some(drained.(phase := Top, kinds := s.kinds + [Followed]))
      else Some(drained.(phase := Ended(Succeeded("normal end"))))
    else None
  }

  function StepStarting(cfg: Config, s: State): Option<State>
    requires s.phase.Starting?
  {
    var i := s.phase.next;
    if i < |s.calls| && |s.pushed| == |s.calls| then
      if IsBlank(s.calls[i].id) then Some(s.(phase := Ended(Errored)))
      else
        Some(Push(s.(phase := Starting(i + 1), pushed := s.pushed[i := Started]),
                  LoopFrame(s.turns, Some(s.calls[i].id), None,
                            ToolCallStarted(s.calls[i].name, cfg.render(s.calls[i].input)))))
    else Some(s.(phase := Tools(Scan(0, 0))))
  }

  // The tool scheduler.

  predicate IsActive(t: Task) {
    t.Begun? || t.Waiting? || t.Running?
  }

  function Active(tasks: seq<Task>): set<nat> {
    set i | 0 <= i < |tasks| && IsActive(tasks[i])
  }

  /** The permits that a batch's own semaphore has handed out. */
  function PermitsTaken(tasks: seq<Task>, from: nat, to: nat): nat {
    |set i | from <= i < to && i < |tasks| && IsActive(tasks[i])|
  }

  function Begin(s: State, i: nat, next: Scheduler): Option<State> {
    if i < |s.tasks| then Some(s.(phase := Tools(next), tasks := s.tasks[i := Begun])) else None
  }

  /** Awaiting task `i`: blocked until it is done, an error ends the run, a result is collected. */
  function Await(s: State, i: nat, next: Scheduler): Option<State> {
    if i < |s.tasks| && s.tasks[i].Done? then
      match s.tasks[i].result
      case Ok(result) => Some(s.(phase := Tools(next), results := s.results + [result]))
      case Err(_) => Some(s.(phase := Ended(Errored)))
    else None
  }

  function StepTools(cfg: Config, s: State): Option<State>
    requires s.phase.Tools?
  {
    match s.phase.scheduler
    case Scan(from, i) =>
      if i >= |s.calls| then Some(s.(phase := Tools(Spawn(from, from, i))))
      else if !cfg.parallelToolCalls then Begin(s, i, Inline(i))
      else if s.calls[i].name !in cfg.parallelSafe then Some(s.(phase := Ended(Errored)))
      else if cfg.parallelSafe[s.calls[i].name] then Some(s.(phase := Tools(Scan(from, i + 1))))
      else Some(s.(phase := Tools(Spawn(from, from, i))))
    case Spawn(from, next, to) =>
      if next >= to then Some(s.(phase := Tools(Join(from, from, to))))
      else if PermitsTaken(s.tasks, from, to) < MAX_CONCURRENT_TOOLS then Begin(s, next, Spawn(from, next + 1, to))
      else None
    case Join(from, next, to) =>
      if next < to then Await(s, next, Join(from, next + 1, to))
      else if to < |s.calls| then Begin(s, to, Inline(to))
      else Some(s.(phase := Reporting(0, AppendResult)))
    case Inline(i) => Await(s, i, Scan(i + 1, i + 1))
  }

  /** The scheduler touches tasks and results only, and leaves the tool phase by failing or reporting. */
  lemma ToolsFrame(cfg: Config, s: State)
    requires s.phase.Tools? && StepTools(cfg, s).Some?
    ensures var after := StepTools(cfg, s).value;
            && after == s.(phase := after.phase, tasks := after.tasks, results := after.results)
            && (after.phase.Tools? || after.phase == Ended(Errored) || after.phase == Reporting(0, AppendResult))
  {
  }

  /** One step of tool task `i`, for a tool the registry knows unless it errors. */
  function StepTask(cfg: Config, s: State, i: nat, act: TaskAct): Option<State>
    requires i < |s.tasks| == |s.calls| == |s.pushed|
  {
    var id := s.calls[i].id;
    var known := s.calls[i].name in cfg.parallelSafe;
    match (s.tasks[i], act)
    case (Begun, PolicyDenies(content)) =>
      if known then Some(s.(tasks := s.tasks[i := Done(Ok(ToolResult(id, content, ToolOutcome.Failed)))])) else None
    case (Begun, PolicyAllows) => if known then Some(s.(tasks := s.tasks[i := Running])) else None
    case (Begun, AsksApproval) =>
      if known then
        Some(Push(s.(tasks := s.tasks[i := Waiting]),
                  Emission(None, Some(id), None, PendingStateChanged(WaitingForApproval))))
      else None
    case (Begun, TaskErrors(error)) => Some(s.(tasks := s.tasks[i := Done(Err(error))]))
    case (Waiting, ApprovalAllows) => Some(s.(tasks := s.tasks[i := Running]))
    case (Waiting, ApprovalRefuses) =>
      Some(Push(s.(tasks := s.tasks[i := Done(Err("cancelled"))], pushed := s.pushed[i := Terminal],
                   refused := s.refused + [id]),
                LoopFrame(s.turns, Some(id), None, ToolCallCompleted(ToolOutcome.Cancelled))))
    case (Waiting, TaskErrors(error)) => Some(s.(tasks := s.tasks[i := Done(Err(error))]))
    case (Running, ToolFinishes(content, outcome)) =>
      Some(s.(tasks := s.tasks[i := Done(Ok(ToolResult(id, content, outcome)))]))
    case (Running, TaskErrors(error)) => Some(s.(tasks := s.tasks[i := Done(Err(error))]))
    case _ => None
  }

  /** A task's step changes that task alone, and at most its own progress and the trace. */
  lemma TaskFrame(cfg: Config, s: State, i: nat, act: TaskAct)
    requires i < |s.tasks| == |s.calls| == |s.pushed| && StepTask(cfg, s, i, act).Some?
    ensures var after := StepTask(cfg, s, i, act).value;
            && after == s.(tasks := s.tasks[i := after.tasks[i]], pushed := after.pushed, trace := after.trace,
                           refused := after.refused)
            && |after.tasks| == |s.tasks| && |after.pushed| == |s.pushed|
            && IsActive(s.tasks[i]) && !after.tasks[i].Idle?
            && (after.tasks[i].Done? && after.tasks[i].result.Ok? ==>
                  after.tasks[i].result.value.callId == s.calls[i].id)
  {
  }

  /** A refused approval closes the call's frames, asking for one announces the wait, nothing else pushes. */
  lemma TaskPushes(cfg: Config, s: State, i: nat, act: TaskAct)
    requires i < |s.tasks| == |s.calls| == |s.pushed| && StepTask(cfg, s, i, act).Some?
    ensures var after, id := StepTask(cfg, s, i, act).value, s.calls[i].id;
            match act
            case ApprovalRefuses =>
              && IsActive(s.tasks[i]) && after.tasks[i].Done?
              && after.pushed == s.pushed[i := Terminal] && after.refused == s.refused + [id]
              && after.trace ==
                 s.trace + [LoopFrame(s.turns, Some(id), None, ToolCallCompleted(ToolOutcome.Cancelled))]
            case AsksApproval =>
              && after.pushed == s.pushed && after.refused == s.refused
              && after.trace == s.trace + [Emission(None, Some(id), None, PendingStateChanged(WaitingForApproval))]
            case _ => after.pushed == s.pushed && after.trace == s.trace && after.refused == s.refused
  {
  }

  /** Recording the results, in order: into the history, then as a progress and a completion frame. */
  function StepReporting(s: State): Option<State>
    requires s.phase.Reporting?
  {
    var i := s.phase.at;
    if i >= |s.results| then Some(s.(phase := Top))
    else if i >= |s.pushed| then None
    else
      var r := s.results[i];
      match s.phase.stage
      case AppendResult =>
        var message := ToolMessage(r.callId, r.content);
        Some(s.(phase := Reporting(i, PushProgress), history := s.history + [message], spoken := s.spoken + [message]))
      case PushProgress =>
        Some(Push(s.(phase := Reporting(i, PushCompletion)),
                  LoopFrame(s.turns, Some(r.callId), Some(0), ToolCallProgressed(r.content))))
      case PushCompletion =>
        Some(Push(s.(phase := Reporting(i + 1, AppendResult), pushed := s.pushed[i := Terminal]),
                  LoopFrame(s.turns, Some(r.callId), None, ToolCallCompleted(r.outcome))))
  }

  function StepAdvance(cfg: Config, s: State): Option<State> {
    match s.phase
    case Announce => Some(Push(s.(phase := Repair, turnOpen := true), LoopFrame(s.turns, None, None, AssistantTurnStarted)))
    case Repair => Some(StepRepair(s))
    case Gathered(_) => Some(StepGathered(cfg, s))
    case Recorded(stop) =>
      Some(Push(s.(phase := Settled(stop), turnOpen := false), LoopFrame(s.turns, None, None, AssistantTurnCompleted)))
    case Settled(_) => StepSettled(s)
    case Starting(_) => StepStarting(cfg, s)
    case Tools(_) => StepTools(cfg, s)
    case Reporting(_, _) => StepReporting(s)
    case _ => None
  }

  /** One step of the system, or None when the action is not possible in this state. */
  function Step(cfg: Config, s: State, a: Action): Option<State> {
    match a
    case Loop(cancelled, fetched) => if s.phase.Top? then Some(StepTop(s, cancelled, fetched)) else None
    case Advance => StepAdvance(cfg, s)
    case StreamOpens => if s.phase.Opening? then Some(s.(phase := Streaming(C.Start))) else None
    case Yield(e) => if s.phase.Streaming? then Some(StepYield(s, e)) else None
    case StreamCloses =>
      if s.phase.Streaming? then Some(s.(phase := Gathered(C.Finish(s.phase.gathering)))) else None
    case StreamFails(contextLimit) =>
      if s.phase.Opening? || s.phase.Streaming? then Some(StepStreamFails(s, contextLimit)) else None
    case FollowUp(fetched) => if s.phase.Settled? then StepFollowUp(s, fetched) else None
    case TaskStep(i, act) =>
      if i < |s.tasks| == |s.calls| == |s.pushed| then StepTask(cfg, s, i, act) else None
    case Abort => if s.phase.Ended? then None else Some(s.(phase := Ended(Errored)))
  }

  predicate Initial(s: State) {
    && s.phase == Top
    && s.turns == s.contextRetries == s.continuationRetries == s.markers == 0
    && s.calls == [] && s.tasks == [] && s.pushed == [] && s.results == []
    && s.trace == [] && s.requests == [] && s.spoken == [] && s.kinds == [] && s.abandoned == {} && !s.turnOpen
    && s.refused == []
    && Q.Balanced(s.ledger)
  }

  /** The state after a sequence of actions, or None if one of them was not possible. */
  function Run(cfg: Config, initial: State, actions: seq<Action>): Option<State> {
    if actions == [] then Some(initial)
    else
      match Run(cfg, initial, actions[..|actions| - 1])
      case None => None
      case Some(before) => Step(cfg, before, actions[|actions| - 1])
  }

  /** `s` can occur in a run that starts in `initial`. */
  ghost predicate Reachable(cfg: Config, initial: State, s: State) {
    Initial(initial) && exists actions :: Run(cfg, initial, actions) == Some(s)
  }
}
