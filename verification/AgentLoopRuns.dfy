/** How long any run can get, and how its tools are scheduled in every interleaving. */
module AgentLoopRuns {
  import opened Prelude
  import opened AgentLoop
  import opened AgentLoopBounds
  import opened AgentLoopTools

  /**
   Run bounds, for every run: at most 32 streams, at most 5 compactions in a row and 27 in all, and at
   most 3 continuations of cut-off turns between turns that use tools.
   */
  lemma {:induction false} RunsAreBounded(cfg: Config, initial: State, s: State)
    requires Reachable(cfg, initial, s)
    ensures RunBounds(s)
  {
    var actions :| Run(cfg, initial, actions) == Some(s);
    RunKeepsBounds(cfg, initial, actions);
    WindowsBounded(s.kinds);
  }

  /**
   Scheduling safety: in every interleaving of the loop with its tool tasks, detached tasks of a
   failed run included, at most 8 tools run at once and a tool that is not parallel-safe runs alone.
   */
  lemma {:induction false} ToolsNeverOverlapWrongly(cfg: Config, initial: State, s: State)
    requires Reachable(cfg, initial, s)
    ensures Overlaps(cfg, s)
  {
    var actions :| Run(cfg, initial, actions) == Some(s);
    RunKeepsTools(cfg, initial, actions);
  }

  /** Batched scheduling refines serial: whenever the tool phase succeeds, its results are the serial ones. */
  lemma {:induction false} BatchedRefinesSerial(cfg: Config, initial: State, s: State)
    requires Reachable(cfg, initial, s) && s.phase.Reporting?
    ensures SerialResults(s)
  {
    var actions :| Run(cfg, initial, actions) == Some(s);
    RunKeepsTools(cfg, initial, actions);
  }

  /**
   No run gets stuck: as long as it has not ended, the loop or one of its tasks can go on without giving up. In
   particular a task that the scheduler waits for has been spawned, and permits run out only while tasks run.
   */
  lemma NeverStuck(cfg: Config, initial: State, s: State)
    requires Reachable(cfg, initial, s) && !s.phase.Ended?
    ensures CanGoOn(cfg, s)
  {
    var actions :| Run(cfg, initial, actions) == Some(s);
    RunKeepsTools(cfg, initial, actions);
    GoesOn(cfg, s);
  }
}
