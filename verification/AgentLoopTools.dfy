/** Tool scheduling: in every interleaving, who may run at the same time and in which order results come out. */
module AgentLoopTools {
  import opened Prelude
  import opened AgentLoop
  import opened Session
  import C = Collector

  /** A call that the scheduler may run next to others. */
  predicate MayOverlap(cfg: Config, call: C.Partial) {
    cfg.parallelToolCalls && call.name in cfg.parallelSafe && cfg.parallelSafe[call.name]
  }

  /** At most 8 tools run at once, and one that may not overlap runs alone. */
  predicate Overlaps(cfg: Config, s: State) {
    && |s.tasks| == |s.calls|
    && |Active(s.tasks)| <= 8
    && (forall i | i in Active(s.tasks) :: MayOverlap(cfg, s.calls[i]) || Active(s.tasks) == {i})
  }

  predicate Finished(s: State, n: nat) {
    n <= |s.results| && n <= |s.tasks| && forall k | 0 <= k < n :: s.tasks[k] == Done(Ok(s.results[k]))
  }

  predicate IdleFrom(s: State, n: nat) {
    forall k | n <= k < |s.tasks| :: s.tasks[k].Idle?
  }

  predicate BegunIn(s: State, from: nat, to: nat) {
    forall k | from <= k < to && k < |s.tasks| :: !s.tasks[k].Idle?
  }

  predicate Batch(cfg: Config, s: State, from: nat, to: nat) {
    forall k | from <= k < to && k < |s.calls| :: MayOverlap(cfg, s.calls[k])
  }

  predicate ScheduleInv(cfg: Config, s: State) {
    && |s.tasks| == |s.calls| == |s.pushed|
    && (forall k | 0 <= k < |s.tasks| && s.tasks[k].Done? && s.tasks[k].result.Ok? ::
          s.tasks[k].result.value.callId == s.calls[k].id)
    && match s.phase
       case Recorded(_) => IdleFrom(s, 0) && s.results == []
       case Settled(_) => IdleFrom(s, 0) && s.results == []
       case Starting(_) => IdleFrom(s, 0) && s.results == []
       case Tools(Scan(from, to)) =>
         from <= to <= |s.calls| && |s.results| == from && Finished(s, from) && IdleFrom(s, from) && Batch(cfg, s, from, to)
       case Tools(Spawn(from, next, to)) =>
         && from <= next <= to <= |s.calls| && |s.results| == from
         && Finished(s, from) && BegunIn(s, from, next) && IdleFrom(s, next) && Batch(cfg, s, from, to)
       case Tools(Join(from, next, to)) =>
         && from <= next <= to <= |s.calls| && |s.results| == next
         && Finished(s, next) && BegunIn(s, next, to) && IdleFrom(s, to) && Batch(cfg, s, from, to)
       case Tools(Inline(at)) =>
         at < |s.calls| && |s.results| == at && Finished(s, at) && !s.tasks[at].Idle? && IdleFrom(s, at + 1)
       case Reporting(at, _) => at <= |s.results| == |s.calls| && Finished(s, |s.calls|)
       case Ended(_) => true
       case _ => Active(s.tasks) == {}
  }

  predicate ToolsInv(cfg: Config, s: State) {
    ScheduleInv(cfg, s) && Overlaps(cfg, s)
  }

  lemma NothingActive(tasks: seq<Task>)
    requires forall k | 0 <= k < |tasks| :: !IsActive(tasks[k])
    ensures Active(tasks) == {}
  {
  }

  lemma ActiveAfterBegin(tasks: seq<Task>, i: nat)
    requires i < |tasks| && tasks[i].Idle?
    ensures Active(tasks[i := Begun]) == Active(tasks) + {i} && i !in Active(tasks)
  {
  }

  /** Starting the next tool of a batch keeps the cap: the batch's permits are all that is active. */
  lemma SpawnOverlaps(cfg: Config, s: State, from: nat, next: nat, to: nat)
    requires |s.tasks| == |s.calls| && from <= next < to <= |s.calls|
    requires forall k | 0 <= k < |s.tasks| && IsActive(s.tasks[k]) :: from <= k < next
    requires s.tasks[next].Idle? && Batch(cfg, s, from, to)
    requires PermitsTaken(s.tasks, from, to) < MAX_CONCURRENT_TOOLS
    ensures Overlaps(cfg, s.(phase := Tools(Spawn(from, next + 1, to)), tasks := s.tasks[next := Begun]))
  {
    var permits := set i | from <= i < to && i < |s.tasks| && IsActive(s.tasks[i]);
    assert Active(s.tasks) == permits;
    ActiveAfterBegin(s.tasks, next);
    var after := s.tasks[next := Begun];
    forall i | i in Active(after) ensures MayOverlap(cfg, s.calls[i]) {
      assert from <= i < to;
    }
  }

  /** A tool that runs inline starts when nothing else is running. */
  lemma BeginInline(cfg: Config, s: State, i: nat)
    requires ToolsInv(cfg, s) && i < |s.calls| && Finished(s, i) && IdleFrom(s, i) && |s.results| == i
    ensures ToolsInv(cfg, s.(phase := Tools(Inline(i)), tasks := s.tasks[i := Begun]))
  {
    NothingActive(s.tasks);
    ActiveAfterBegin(s.tasks, i);
    assert Active(s.tasks[i := Begun]) == {i};
  }

  lemma ScanKeeps(cfg: Config, s: State, from: nat, i: nat)
    requires ToolsInv(cfg, s) && s.phase == Tools(Scan(from, i)) && StepTools(cfg, s).Some?
    ensures ToolsInv(cfg, StepTools(cfg, s).value)
  {
    if i < |s.calls| && !cfg.parallelToolCalls {
      assert from < i ==> MayOverlap(cfg, s.calls[from]);
      BeginInline(cfg, s, i);
    }
  }

  lemma SpawnKeeps(cfg: Config, s: State, from: nat, next: nat, to: nat)
    requires ToolsInv(cfg, s) && s.phase == Tools(Spawn(from, next, to)) && StepTools(cfg, s).Some?
    ensures ToolsInv(cfg, StepTools(cfg, s).value)
  {
    if next < to {
      SpawnOverlaps(cfg, s, from, next, to);
    }
  }

  lemma JoinKeeps(cfg: Config, s: State, from: nat, next: nat, to: nat)
    requires ToolsInv(cfg, s) && s.phase == Tools(Join(from, next, to)) && StepTools(cfg, s).Some?
    ensures ToolsInv(cfg, StepTools(cfg, s).value)
  {
    if next >= to && to < |s.calls| { BeginInline(cfg, s, to); }
  }

  lemma InlineKeeps(cfg: Config, s: State, i: nat)
    requires ToolsInv(cfg, s) && s.phase == Tools(Inline(i)) && StepTools(cfg, s).Some?
    ensures ToolsInv(cfg, StepTools(cfg, s).value)
  {
  }

  lemma StepToolsKeeps(cfg: Config, s: State)
    requires ToolsInv(cfg, s) && s.phase.Tools? && StepTools(cfg, s).Some?
    ensures ToolsInv(cfg, StepTools(cfg, s).value)
  {
    hide ToolsInv, StepTools;
    match s.phase.scheduler {
      case Scan(from, i) => ScanKeeps(cfg, s, from, i);
      case Spawn(from, next, to) => SpawnKeeps(cfg, s, from, next, to);
      case Join(from, next, to) => JoinKeeps(cfg, s, from, next, to);
      case Inline(i) => InlineKeeps(cfg, s, i);
    }
  }

  /** A task's own steps only ever make it less active. */
  lemma StepTaskKeeps(cfg: Config, s: State, i: nat, act: TaskAct)
    requires ToolsInv(cfg, s) && i < |s.tasks| && StepTask(cfg, s, i, act).Some?
    ensures ToolsInv(cfg, StepTask(cfg, s, i, act).value)
  {
    TaskFrame(cfg, s, i, act);
    hide StepTask;
    var after := StepTask(cfg, s, i, act).value;
    ActiveAfterTask(s.tasks, i, after.tasks[i]);
  }

  lemma ActiveAfterTask(tasks: seq<Task>, i: nat, t: Task)
    requires i < |tasks| && IsActive(tasks[i])
    ensures Active(tasks[i := t]) <= Active(tasks) && i in Active(tasks)
    ensures |Active(tasks[i := t])| <= |Active(tasks)|
  {
    var before, after := Active(tasks), Active(tasks[i := t]);
    if IsActive(t) {
      assert after == before;
    } else {
      assert after == before - {i};
    }
  }

  /** Steps outside the tool phase that leave calls, tasks and results alone. */
  lemma ToolsQuiet(cfg: Config, s: State, after: State)
    requires ToolsInv(cfg, s)
    requires after.calls == s.calls && after.tasks == s.tasks && after.results == s.results
    requires |after.pushed| == |s.pushed|
    requires after.phase.Ended? || (Unscheduled(s.phase) && Unscheduled(after.phase))
    ensures ToolsInv(cfg, after)
  {
  }

  /** Phases in which no task of the current turn has been given to the scheduler. */
  predicate Unscheduled(p: Phase) {
    !p.Recorded? && !p.Settled? && !p.Starting? && !p.Tools? && !p.Reporting? && !p.Ended?
  }

  lemma GatheredKeeps(cfg: Config, s: State)
    requires ToolsInv(cfg, s) && s.phase.Gathered? && s.results == []
    ensures ToolsInv(cfg, StepGathered(cfg, s))
  {
    NothingActive(StepGathered(cfg, s).tasks) by {
      if C.FinalizeToolCalls(cfg.parses, s.phase.turn).Err? {
        assert forall k | 0 <= k < |s.tasks| && IsActive(s.tasks[k]) :: k in Active(s.tasks);
      }
    }
  }

  lemma IdleIsInactive(s: State)
    requires IdleFrom(s, 0)
    ensures Active(s.tasks) == {}
  {
    NothingActive(s.tasks);
  }

  lemma RecordedKeeps(cfg: Config, s: State)
    requires ToolsInv(cfg, s) && s.phase.Recorded?
    ensures ToolsInv(cfg, StepAdvance(cfg, s).value)
  {
  }

  lemma SettledKeeps(cfg: Config, s: State)
    requires ToolsInv(cfg, s) && s.phase.Settled? && StepSettled(s).Some?
    ensures ToolsInv(cfg, StepSettled(s).value)
  {
    IdleIsInactive(s);
  }

  lemma StartingKeeps(cfg: Config, s: State)
    requires ToolsInv(cfg, s) && s.phase.Starting?
    ensures StepStarting(cfg, s).Some? && ToolsInv(cfg, StepStarting(cfg, s).value)
  {
  }

  lemma ReportingKeeps(cfg: Config, s: State)
    requires ToolsInv(cfg, s) && s.phase.Reporting? && StepReporting(s).Some?
    ensures ToolsInv(cfg, StepReporting(s).value)
  {
    AllFinished(s);
  }

  lemma AdvanceKeeps(cfg: Config, s: State)
    requires ToolsInv(cfg, s) && Cleared(s) && StepAdvance(cfg, s).Some?
    ensures ToolsInv(cfg, StepAdvance(cfg, s).value)
  {
    hide ToolsInv, StepGathered, StepSettled, StepStarting, StepTools, StepReporting;
    match s.phase {
      case Announce => ToolsQuiet(cfg, s, StepAdvance(cfg, s).value);
      case Repair => ToolsQuiet(cfg, s, StepAdvance(cfg, s).value);
      case Gathered(_) => GatheredKeeps(cfg, s);
      case Recorded(_) => RecordedKeeps(cfg, s);
      case Settled(_) => SettledKeeps(cfg, s);
      case Starting(_) => StartingKeeps(cfg, s);
      case Tools(_) => StepToolsKeeps(cfg, s);
      case Reporting(_, _) => ReportingKeeps(cfg, s);
      case _ =>
    }
  }

  lemma AllFinished(s: State)
    requires Finished(s, |s.tasks|)
    ensures Active(s.tasks) == {}
  {
    NothingActive(s.tasks);
  }

  /** Results of earlier turns are gone once a turn is announced. */
  predicate Cleared(s: State) {
    Unscheduled(s.phase) && !s.phase.Top? ==> s.results == []
  }

  lemma ClearedStep(cfg: Config, s: State, a: Action)
    requires Cleared(s) && Step(cfg, s, a).Some?
    ensures Cleared(Step(cfg, s, a).value)
  {
  }

  lemma TopKeeps(cfg: Config, s: State, cancelled: bool, fetched: seq<Message>)
    requires ToolsInv(cfg, s) && s.phase.Top?
    ensures ToolsInv(cfg, StepTop(s, cancelled, fetched))
  {
    NothingActive([]);
  }

  lemma FollowUpKeeps(cfg: Config, s: State, fetched: seq<Message>)
    requires ToolsInv(cfg, s) && s.phase.Settled? && StepFollowUp(s, fetched).Some?
    ensures ToolsInv(cfg, StepFollowUp(s, fetched).value)
  {
    IdleIsInactive(s);
  }

  lemma ToolsStep(cfg: Config, s: State, a: Action)
    requires ToolsInv(cfg, s) && Cleared(s) && Step(cfg, s, a).Some?
    ensures ToolsInv(cfg, Step(cfg, s, a).value)
  {
    hide ToolsInv, StepAdvance, StepTask, StepTop, StepFollowUp;
    match a {
      case Loop(cancelled, fetched) => TopKeeps(cfg, s, cancelled, fetched);
      case Advance => AdvanceKeeps(cfg, s);
      case FollowUp(fetched) => FollowUpKeeps(cfg, s, fetched);
      case TaskStep(i, act) => StepTaskKeeps(cfg, s, i, act);
      case _ => ToolsQuiet(cfg, s, Step(cfg, s, a).value);
    }
  }

  lemma {:induction false} RunKeepsTools(cfg: Config, initial: State, actions: seq<Action>)
    requires Initial(initial) && Run(cfg, initial, actions).Some?
    ensures ToolsInv(cfg, Run(cfg, initial, actions).value)
    ensures Cleared(Run(cfg, initial, actions).value)
  {
    if actions == [] {
      NothingActive(initial.tasks);
    } else {
      var front := actions[..|actions| - 1];
      RunKeepsTools(cfg, initial, front);
      ToolsStep(cfg, Run(cfg, initial, front).value, actions[|actions| - 1]);
      ClearedStep(cfg, Run(cfg, initial, front).value, actions[|actions| - 1]);
    }
  }

  // Progress.

  /** Something other than giving up can happen. */
  ghost predicate CanGoOn(cfg: Config, s: State) {
    exists a :: a != Abort && Step(cfg, s, a).Some?
  }

  lemma GoesOnBy(cfg: Config, s: State, a: Action)
    requires a != Abort && Step(cfg, s, a).Some?
    ensures CanGoOn(cfg, s)
  {
  }

  lemma ActiveTaskGoesOn(cfg: Config, s: State, i: nat)
    requires i < |s.tasks| == |s.calls| == |s.pushed| && IsActive(s.tasks[i])
    ensures CanGoOn(cfg, s)
  {
    var act := if s.tasks[i].Waiting? then ApprovalAllows else TaskErrors("");
    GoesOnBy(cfg, s, TaskStep(i, act));
  }

  /** When no permit is left, a task of the batch is active. */
  lemma PermitsAreHeld(s: State, from: nat, to: nat) returns (i: nat)
    requires PermitsTaken(s.tasks, from, to) > 0
    ensures i < |s.tasks| && IsActive(s.tasks[i])
  {
    var permits := set i | from <= i < to && i < |s.tasks| && IsActive(s.tasks[i]);
    assert permits != {};
    i :| i in permits;
  }

  /** The scheduler never waits for a task that does not run. */
  lemma ToolsGoOn(cfg: Config, s: State)
    requires ToolsInv(cfg, s) && s.phase.Tools?
    ensures CanGoOn(cfg, s)
  {
    hide CanGoOn, PermitsTaken, Active;
    if StepTools(cfg, s).Some? {
      GoesOnBy(cfg, s, Advance);
    } else {
      match s.phase.scheduler {
        case Spawn(from, next, to) =>
          var i := PermitsAreHeld(s, from, to);
          ActiveTaskGoesOn(cfg, s, i);
        case Join(from, next, to) => ActiveTaskGoesOn(cfg, s, next);
        case Inline(i) => ActiveTaskGoesOn(cfg, s, i);
        case Scan(_, _) => assert false;
      }
    }
  }

  lemma GoesOn(cfg: Config, s: State)
    requires ToolsInv(cfg, s) && !s.phase.Ended?
    ensures CanGoOn(cfg, s)
  {
    if s.phase.Tools? { ToolsGoOn(cfg, s); }
    hide CanGoOn, Active, StepTop, StepTools, StepTask, StepGathered, StepRepair;
    match s.phase {
      case Top => GoesOnBy(cfg, s, Loop(false, []));
      case Opening => GoesOnBy(cfg, s, StreamOpens);
      case Streaming(_) => GoesOnBy(cfg, s, StreamCloses);
      case Settled(_) => GoesOnBy(cfg, s, if StepSettled(s).Some? then Advance else FollowUp([]));
      case Tools(_) =>
      case _ => GoesOnBy(cfg, s, Advance);
    }
  }

  /** The results of running the calls one after another: each call's own result, in call order. */
  predicate SerialResults(s: State) {
    && |s.results| == |s.calls| == |s.tasks|
    && forall k | 0 <= k < |s.calls| ::
         && s.results[k].callId == s.calls[k].id
         && s.tasks[k] == Done(Ok(s.results[k]))
  }
}
