/** What the model is sent: the conversation history at every request of every run. */
module AgentLoopHistory {
  import opened Prelude
  import opened AgentLoop
  import opened S = Session
  import opened AgentLoopTools
  import opened AgentLoopBounds
  import opened AgentLoopDecisions
  import Q = Queues
  import C = Collector

  // Requests are complete, and the first message stays.

  predicate SameHead(initial: State, history: seq<Message>) {
    initial.history != [] ==> history != [] && history[0] == initial.history[0]
  }

  predicate RequestsInv(initial: State, s: State) {
    && SameHead(initial, s.history)
    && (forall r | r in s.requests :: Answered(r) && SameHead(initial, r))
  }

  lemma AppendKeepsHead(initial: State, history: seq<Message>, more: seq<Message>)
    requires SameHead(initial, history)
    ensures SameHead(initial, history + more)
  {
  }

  lemma RequestsRepair(initial: State, s: State)
    requires RequestsInv(initial, s)
    ensures RequestsInv(initial, StepRepair(s))
  {
    RepairAnswersEveryCall(s.history);
    AppendKeepsHead(initial, s.history, Markers(Missing(s.history)));
  }

  /** A step other than sending a request appends to the history or compacts it. */
  predicate HistoryGrows(s: State, after: State) {
    && after.requests == s.requests
    && (s.history <= after.history || after.history == S.Compacted(s.history))
  }

  lemma RequestsGrow(initial: State, s: State, after: State)
    requires RequestsInv(initial, s) && HistoryGrows(s, after)
    ensures RequestsInv(initial, after)
  {
  }

  lemma AdvanceGrowsHistory(cfg: Config, s: State)
    requires StepAdvance(cfg, s).Some? && !s.phase.Repair?
    ensures HistoryGrows(s, StepAdvance(cfg, s).value)
  {
    if s.phase.Tools? { ToolsFrame(cfg, s); }
    hide C.FinalizeToolCalls, StepTools, StepRepair, S.Compacted;
  }

  lemma QueuesGrowHistory(s: State, cancelled: bool, fetched: seq<Message>)
    ensures HistoryGrows(s, StepTop(s, cancelled, fetched))
    ensures s.phase.Settled? && StepFollowUp(s, fetched).Some? ==> HistoryGrows(s, StepFollowUp(s, fetched).value)
  {
    hide Q.Perform, Q.DrainSteering, Q.DrainFollowUp, S.Compacted;
  }

  lemma StepGrows(cfg: Config, s: State, a: Action)
    requires Step(cfg, s, a).Some? && !(a.Advance? && s.phase.Repair?)
    ensures HistoryGrows(s, Step(cfg, s, a).value)
  {
    hide StepAdvance, StepTop, StepFollowUp, StepTask, S.Compacted, C.Absorb, C.Finish;
    match a {
      case Advance => AdvanceGrowsHistory(cfg, s);
      case Loop(cancelled, fetched) => QueuesGrowHistory(s, cancelled, fetched);
      case FollowUp(fetched) => QueuesGrowHistory(s, false, fetched);
      case TaskStep(i, act) => TaskFrame(cfg, s, i, act);
      case _ =>
    }
  }

  lemma {:induction false} RunKeepsRequests(cfg: Config, initial: State, actions: seq<Action>)
    requires Initial(initial) && Run(cfg, initial, actions).Some?
    ensures RequestsInv(initial, Run(cfg, initial, actions).value)
  {
    if actions != [] {
      var front, a := actions[..|actions| - 1], actions[|actions| - 1];
      RunKeepsRequests(cfg, initial, front);
      var before := Run(cfg, initial, front).value;
      if a.Advance? && before.phase.Repair? {
        RequestsRepair(initial, before);
      } else {
        StepGrows(cfg, before, a);
        RequestsGrow(initial, before, Step(cfg, before, a).value);
      }
    }
  }

  /**
   Every request sent in any run has a result for every tool call in it, and starts with the message
   the run started with.
   */
  lemma RequestsAreAnswered(cfg: Config, initial: State, s: State)
    requires Reachable(cfg, initial, s)
    ensures forall r | r in s.requests :: Answered(r)
    ensures initial.history != [] ==> s.history != [] && s.history[0] == initial.history[0]
    ensures initial.history != [] ==> forall r | r in s.requests :: r != [] && r[0] == initial.history[0]
  {
    var actions :| Run(cfg, initial, actions) == Some(s);
    RunKeepsRequests(cfg, initial, actions);
  }

  // Repair has nothing to do in a run that is never compacted.

  predicate SelfAnswered(messages: seq<Message>) {
    forall m | m in messages :: Answered([m])
  }

  /** Nothing was compacted, and neither the initial history nor a queued message has an open call. */
  predicate Clean(initial: State, s: State) {
    && Answered(initial.history)
    && SelfAnswered(s.ledger.steeringIn) && SelfAnswered(s.ledger.followUpIn)
    && s.abandoned == {}
  }

  /** Every call of the history has a result, except the current turn's calls from `from` on. */
  predicate AnsweredExcept(history: seq<Message>, calls: seq<C.Partial>, from: nat) {
    forall id | id in CallIds(history) ::
      HasResult(history, id) || exists k :: from <= k < |calls| && calls[k].id == id
  }

  /** The first call of the current turn whose result is not yet in the history. */
  function FirstOpen(s: State): nat {
    match s.phase
    case Recorded(_) => 0
    case Settled(_) => 0
    case Starting(_) => 0
    case Tools(_) => 0
    case Reporting(at, AppendResult) => at
    case Reporting(at, _) => at + 1
    case _ => |s.calls|
  }

  predicate CleanInv(initial: State, s: State) {
    && Q.Balanced(s.ledger)
    && (Clean(initial, s) ==>
          s.markers == 0 && (s.phase.Ended? || AnsweredExcept(s.history, s.calls, FirstOpen(s))))
  }

  lemma NoneOpen(history: seq<Message>, calls: seq<C.Partial>, from: nat)
    requires AnsweredExcept(history, calls, from) && from >= |calls|
    ensures Answered(history)
  {
  }

  lemma AllAnswered(history: seq<Message>, calls: seq<C.Partial>, from: nat)
    requires Answered(history)
    ensures AnsweredExcept(history, calls, from)
  {
  }

  lemma {:induction false} SelfAnsweredAppend(history: seq<Message>, more: seq<Message>)
    requires Answered(history) && SelfAnswered(more)
    ensures Answered(history + more)
    decreases |more|
  {
    if more == [] {
      assert history + more == history;
    } else {
      var front, last := more[..|more| - 1], more[|more| - 1];
      SelfAnsweredAppend(history, front);
      AnsweredAppend(history + front, [last]);
      assert history + more == (history + front) + [last];
    }
  }

  lemma DeliveredSelfAnswered(delivered: seq<Message>, left: seq<Message>, all: seq<Message>, out: seq<Message>)
    requires (out + delivered) + left == all && SelfAnswered(all)
    ensures SelfAnswered(delivered)
  {
    forall m | m in delivered ensures Answered([m]) {
      assert m in out + delivered;
      assert m in (out + delivered) + left;
    }
  }

  lemma CleanTop(initial: State, s: State, cancelled: bool, fetched: seq<Message>)
    requires CleanInv(initial, s) && s.phase.Top?
    ensures CleanInv(initial, StepTop(s, cancelled, fetched))
  {
    var after := StepTop(s, cancelled, fetched);
    if s.turns > 0 {
      Q.PerformBalanced(s.ledger, Q.OpDrainSteering(fetched));
      if Clean(initial, after) {
        assert SelfAnswered(s.ledger.steeringIn) by {
          forall m | m in s.ledger.steeringIn ensures Answered([m]) { assert m in after.ledger.steeringIn; }
        }
        NoneOpen(s.history, s.calls, FirstOpen(s));
        var delivered := Q.DrainSteering(s.ledger.queue, fetched).1;
        DeliveredSelfAnswered(delivered, Q.Messages(after.ledger.queue.steering), after.ledger.steeringIn,
                              s.ledger.steeringOut);
        SelfAnsweredAppend(s.history, delivered);
        AllAnswered(after.history, after.calls, 0);
      }
    } else if Clean(initial, s) {
      NoneOpen(s.history, s.calls, FirstOpen(s));
      AllAnswered(after.history, after.calls, 0);
    }
  }

  lemma CleanFollowUp(initial: State, s: State, fetched: seq<Message>)
    requires CleanInv(initial, s) && s.phase.Settled? && StepFollowUp(s, fetched).Some?
    ensures CleanInv(initial, StepFollowUp(s, fetched).value)
  {
    var after := StepFollowUp(s, fetched).value;
    Q.PerformBalanced(s.ledger, Q.OpDrainFollowUp(fetched));
    if Clean(initial, after) {
      assert SelfAnswered(s.ledger.followUpIn) by {
        forall m | m in s.ledger.followUpIn ensures Answered([m]) { assert m in after.ledger.followUpIn; }
      }
      NoneOpen(s.history, s.calls, 0);
      var delivered := Q.DrainFollowUp(s.ledger.queue, fetched).1;
      DeliveredSelfAnswered(delivered, Q.Messages(after.ledger.queue.followUp), after.ledger.followUpIn,
                            s.ledger.followUpOut);
      SelfAnsweredAppend(s.history, delivered);
      AllAnswered(after.history, after.calls, 0);
    }
  }

  lemma CleanRepair(initial: State, s: State)
    requires CleanInv(initial, s) && s.phase.Repair?
    ensures CleanInv(initial, StepRepair(s))
  {
    if Clean(initial, s) {
      NoneOpen(s.history, s.calls, FirstOpen(s));
      RepairAnswersEveryCall(s.history);
      assert |Repaired(s.history)| == |s.history| + |Missing(s.history)|;
    }
  }

  /** The assistant message opens exactly the calls of the turn. */
  lemma CleanGathered(cfg: Config, initial: State, s: State)
    requires CleanInv(initial, s) && s.phase.Gathered?
    ensures CleanInv(initial, StepGathered(cfg, s))
  {
    var after := StepGathered(cfg, s);
    if Clean(initial, s) && after.phase.Recorded? {
      NoneOpen(s.history, s.calls, FirstOpen(s));
      var records := ToolRecords(cfg, after.calls);
      var message := AssistantMessage(s.phase.turn.text, records);
      CallIdsSnoc(s.history, message);
      forall id | id in CallIds(after.history)
        ensures HasResult(after.history, id) || exists k :: 0 <= k < |after.calls| && after.calls[k].id == id
      {
        if id in CallIds(s.history) {
          var m :| m in s.history && m.toolCallId == Some(id);
          assert m in after.history;
        } else {
          var k :| 0 <= k < |records| && IdsOf(records)[k] == id;
          assert after.calls[k].id == id;
        }
      }
    }
  }

  /** Appending a call's result closes that call. */
  lemma ResultClosesCall(history: seq<Message>, calls: seq<C.Partial>, i: nat, message: Message)
    requires AnsweredExcept(history, calls, i) && i < |calls|
    requires message.toolCalls == [] && message.toolCallId == Some(calls[i].id)
    ensures AnsweredExcept(history + [message], calls, i + 1)
  {
    CallIdsSnoc(history, message);
    assert CallIds(history + [message]) == CallIds(history);
    forall id | id in CallIds(history)
      ensures HasResult(history + [message], id) || exists k :: i + 1 <= k < |calls| && calls[k].id == id
    {
      if HasResult(history, id) {
        var m :| m in history && m.toolCallId == Some(id);
        assert m in history + [message];
      } else {
        var k :| i <= k < |calls| && calls[k].id == id;
        assert message in history + [message];
      }
    }
  }

  lemma CleanReporting(cfg: Config, initial: State, s: State)
    requires CleanInv(initial, s) && s.phase.Reporting? && StepReporting(s).Some?
    requires ToolsInv(cfg, s)
    ensures CleanInv(initial, StepReporting(s).value)
  {
    hide AnsweredExcept, SelfAnswered, Answered;
    var i := s.phase.at;
    if Clean(initial, s) && s.phase.stage.AppendResult? && i < |s.results| {
      assert s.results[i].callId == s.calls[i].id;
      ResultClosesCall(s.history, s.calls, i, ToolMessage(s.results[i].callId, s.results[i].content));
    } else if Clean(initial, s) && i >= |s.results| {
      NoneOpen(s.history, s.calls, FirstOpen(s));
      AllAnswered(s.history, s.calls, |s.calls|);
    }
  }

  /** Steps that touch neither the history nor the queues. */
  lemma CleanQuiet(initial: State, s: State, after: State)
    requires CleanInv(initial, s)
    requires after.history == s.history && after.ledger == s.ledger && after.calls == s.calls
    requires after.markers == s.markers && after.abandoned == s.abandoned
    requires after.phase.Ended? || (!s.phase.Ended? && FirstOpen(after) == FirstOpen(s))
    ensures CleanInv(initial, after)
  {
  }

  lemma CleanStreamFails(initial: State, s: State, contextLimit: bool)
    requires CleanInv(initial, s) && (s.phase.Opening? || s.phase.Streaming?)
    ensures CleanInv(initial, StepStreamFails(s, contextLimit))
  {
    if StepStreamFails(s, contextLimit).phase.Top? {
      assert s.turns in StepStreamFails(s, contextLimit).abandoned;
    }
  }

  lemma CleanSettled(initial: State, s: State)
    requires CleanInv(initial, s) && s.phase.Settled? && StepSettled(s).Some?
    ensures CleanInv(initial, StepSettled(s).value)
  {
  }

  lemma CleanTools(cfg: Config, initial: State, s: State)
    requires CleanInv(initial, s) && s.phase.Tools? && StepTools(cfg, s).Some?
    ensures CleanInv(initial, StepTools(cfg, s).value)
  {
    hide CleanInv;
    CleanQuiet(initial, s, StepTools(cfg, s).value);
  }

  lemma CleanTask(cfg: Config, initial: State, s: State, i: nat, act: TaskAct)
    requires CleanInv(initial, s) && i < |s.tasks| == |s.calls| == |s.pushed| && StepTask(cfg, s, i, act).Some?
    ensures CleanInv(initial, StepTask(cfg, s, i, act).value)
  {
    TaskFrame(cfg, s, i, act);
    hide CleanInv, StepTask;
    CleanQuiet(initial, s, StepTask(cfg, s, i, act).value);
  }

  lemma CleanAdvance(cfg: Config, initial: State, s: State)
    requires CleanInv(initial, s) && ToolsInv(cfg, s) && StepAdvance(cfg, s).Some?
    ensures CleanInv(initial, StepAdvance(cfg, s).value)
  {
    hide CleanInv, ToolsInv, StepRepair, StepGathered, StepSettled, StepTools, StepReporting;
    match s.phase {
      case Announce => CleanQuiet(initial, s, StepAdvance(cfg, s).value);
      case Repair => CleanRepair(initial, s);
      case Gathered(_) => CleanGathered(cfg, initial, s);
      case Recorded(_) => CleanQuiet(initial, s, StepAdvance(cfg, s).value);
      case Settled(_) => CleanSettled(initial, s);
      case Starting(_) => CleanQuiet(initial, s, StepAdvance(cfg, s).value);
      case Tools(_) => CleanTools(cfg, initial, s);
      case Reporting(_, _) => CleanReporting(cfg, initial, s);
      case _ =>
    }
  }

  lemma CleanStep(cfg: Config, initial: State, s: State, a: Action)
    requires CleanInv(initial, s) && ToolsInv(cfg, s) && Step(cfg, s, a).Some?
    ensures CleanInv(initial, Step(cfg, s, a).value)
  {
    hide CleanInv, ToolsInv, StepTop, StepAdvance, StepStreamFails, StepFollowUp, StepTask;
    match a {
      case Loop(cancelled, fetched) => CleanTop(initial, s, cancelled, fetched);
      case Advance => CleanAdvance(cfg, initial, s);
      case StreamFails(contextLimit) => CleanStreamFails(initial, s, contextLimit);
      case FollowUp(fetched) => CleanFollowUp(initial, s, fetched);
      case TaskStep(i, act) => CleanTask(cfg, initial, s, i, act);
      case _ => CleanQuiet(initial, s, Step(cfg, s, a).value);
    }
  }

  lemma {:induction false} RunKeepsClean(cfg: Config, initial: State, actions: seq<Action>)
    requires Initial(initial) && Run(cfg, initial, actions).Some?
    ensures CleanInv(initial, Run(cfg, initial, actions).value)
  {
    if actions == [] {
      if Clean(initial, initial) { AllAnswered(initial.history, initial.calls, 0); }
    } else {
      var front := actions[..|actions| - 1];
      RunKeepsClean(cfg, initial, front);
      RunKeepsTools(cfg, initial, front);
      CleanStep(cfg, initial, Run(cfg, initial, front).value, actions[|actions| - 1]);
    }
  }

  /**
   A run without compaction whose initial and queued messages leave no call open never needs a repair
   marker: the loop itself answers every call it records.
   */
  lemma NoMarkersWithoutCompaction(cfg: Config, initial: State, s: State)
    requires Reachable(cfg, initial, s) && Clean(initial, s)
    ensures s.markers == 0
  {
    var actions :| Run(cfg, initial, actions) == Some(s);
    RunKeepsClean(cfg, initial, actions);
  }

  // Queues over whole runs.

  /** No run loses or reorders a queued message, and one that ends normally leaves no follow-up behind. */
  lemma QueuesAreConserved(cfg: Config, initial: State, s: State)
    requires Reachable(cfg, initial, s)
    ensures Q.Balanced(s.ledger)
    ensures s.phase == Ended(Succeeded("normal end")) ==> s.ledger.queue.followUp == []
  {
    var actions :| Run(cfg, initial, actions) == Some(s);
    RunKeepsClean(cfg, initial, actions);
    RunKeepsEnds(cfg, initial, actions);
    NormalEndsAreDrained(s);
  }

  lemma NormalEndsAreDrained(s: State)
    requires EndsInv(s)
    ensures s.phase == Ended(Succeeded("normal end")) ==> s.ledger.queue.followUp == []
  {
    assert |"normal end"| == 10 && |"max turns reached"| == 17;
  }

  // Where the messages of a history come from.

  datatype Origin = Steered | FollowedUp | Marker | Spoken

  datatype Entry = Entry(origin: Origin, message: Message)

  function From(origin: Origin, entries: seq<Entry>): seq<Message> {
    if entries == [] then []
    else
      var last := entries[|entries| - 1];
      From(origin, entries[..|entries| - 1]) + if last.origin == origin then [last.message] else []
  }

  function EntryMessages(entries: seq<Entry>): seq<Message> {
    seq(|entries|, i requires 0 <= i < |entries| => entries[i].message)
  }

  function Labelled(origin: Origin, messages: seq<Message>): seq<Entry> {
    seq(|messages|, i requires 0 <= i < |messages| => Entry(origin, messages[i]))
  }

  lemma {:induction false} FromAppend(origin: Origin, a: seq<Entry>, b: seq<Entry>)
    ensures From(origin, a + b) == From(origin, a) + From(origin, b)
    decreases |b|
  {
    if b == [] {
      assert a + b == a;
    } else {
      var front, last := b[..|b| - 1], b[|b| - 1];
      FromAppend(origin, a, front);
      assert (a + b)[..|a + b| - 1] == a + front && (a + b)[|a + b| - 1] == last;
    }
  }

  lemma {:induction false} FromLabelled(origin: Origin, given: Origin, messages: seq<Message>)
    ensures From(origin, Labelled(given, messages)) == if origin == given then messages else []
  {
    if messages != [] {
      var front, last := messages[..|messages| - 1], messages[|messages| - 1];
      FromLabelled(origin, given, front);
      var all := Labelled(given, messages);
      assert all[..|all| - 1] == Labelled(given, front);
      assert front + [last] == messages;
    }
  }

  /** What is left of a history once the `c` oldest messages after the first are gone. */
  function Kept(all: seq<Message>, c: nat): seq<Message> {
    if c == 0 || c + 2 > |all| then all else [all[0]] + all[c + 1..]
  }

  /**
   Everything that was added to the messages the run started with is an interleaving of what the queues handed
   out, each lane in its order, of the turns and tool results recorded, and of repair markers; the history is
   what `c` compactions left of it.
   */
  ghost predicate Accounts(initial: State, s: State, entries: seq<Entry>, c: nat) {
    && (c == 0 || c + 2 <= |initial.history| + |entries|)
    && s.history == Kept(initial.history + EntryMessages(entries), c)
    && s.ledger.steeringOut == initial.ledger.steeringOut + From(Steered, entries)
    && s.ledger.followUpOut == initial.ledger.followUpOut + From(FollowedUp, entries)
    && s.spoken == From(Spoken, entries)
    && s.markers == |From(Marker, entries)|
  }

  lemma KeptAppend(all: seq<Message>, c: nat, more: seq<Message>)
    requires c == 0 || c + 2 <= |all|
    ensures Kept(all, c) + more == Kept(all + more, c)
  {
  }

  lemma KeptCompacted(all: seq<Message>, c: nat)
    requires c == 0 || c + 2 <= |all|
    requires |Kept(all, c)| > 2
    ensures S.Compacted(Kept(all, c)) == Kept(all, c + 1) && c + 3 <= |all|
  {
    var kept := Kept(all, c);
    assert kept[2..] == all[c + 2..] && kept[0] == all[0];
  }

  /** A step appends `messages` of one origin to the history, and takes exactly them out of that lane. */
  ghost predicate AppendsFrom(s: State, after: State, origin: Origin, messages: seq<Message>) {
    && after.history == s.history + messages
    && after.ledger.steeringOut == s.ledger.steeringOut + (if origin.Steered? then messages else [])
    && after.ledger.followUpOut == s.ledger.followUpOut + (if origin.FollowedUp? then messages else [])
    && after.spoken == s.spoken + (if origin.Spoken? then messages else [])
    && after.markers == s.markers + (if origin.Marker? then |messages| else 0)
  }

  lemma AccountsStep(initial: State, s: State, entries: seq<Entry>, c: nat, after: State, origin: Origin,
                     messages: seq<Message>)
    requires Accounts(initial, s, entries, c) && AppendsFrom(s, after, origin, messages)
    ensures Accounts(initial, after, entries + Labelled(origin, messages), c)
  {
    var more := Labelled(origin, messages);
    MessagesAppend(entries, origin, messages);
    FromAppend(Steered, entries, more);
    FromAppend(FollowedUp, entries, more);
    FromAppend(Spoken, entries, more);
    FromAppend(Marker, entries, more);
    FromLabelled(Steered, origin, messages);
    FromLabelled(FollowedUp, origin, messages);
    FromLabelled(Spoken, origin, messages);
    FromLabelled(Marker, origin, messages);
    assert |EntryMessages(entries)| == |entries|;
    hide From, Labelled, EntryMessages, Kept;
    KeptAppend(initial.history + EntryMessages(entries), c, messages);
    Reassociate(initial.history, EntryMessages(entries), messages);
    Reassociate(initial.ledger.steeringOut, From(Steered, entries), if origin.Steered? then messages else []);
    Reassociate(initial.ledger.followUpOut, From(FollowedUp, entries), if origin.FollowedUp? then messages else []);
  }

  lemma MessagesAppend(entries: seq<Entry>, origin: Origin, messages: seq<Message>)
    ensures EntryMessages(entries + Labelled(origin, messages)) == EntryMessages(entries) + messages
  {
  }

  lemma Reassociate(a: seq<Message>, b: seq<Message>, c: seq<Message>)
    ensures (a + b) + c == a + (b + c)
  {
  }

  lemma AdvanceAppends(cfg: Config, s: State, after: State) returns (origin: Origin, messages: seq<Message>)
    requires StepAdvance(cfg, s) == Some(after)
    ensures AppendsFrom(s, after, origin, messages)
  {
    hide C.FinalizeToolCalls, Missing, StepTools;
    origin, messages := Spoken, [];
    match s.phase {
      case Repair => origin, messages := Marker, Markers(Missing(s.history));
      case Gathered(turn) =>
        if after.phase.Recorded? { messages := [AssistantMessage(turn.text, ToolRecords(cfg, after.calls))]; }
      case Reporting(i, stage) =>
        if i < |s.results| && stage.AppendResult? {
          messages := [ToolMessage(s.results[i].callId, s.results[i].content)];
        }
      case Tools(_) => ToolsFrame(cfg, s);
      case _ =>
    }
  }

  // Compaction, as the actions call for it.

  /** The stream failed for its context's length, with fewer than 5 compactions in a row before it. */
  predicate Compacts(s: State, a: Action) {
    a == StreamFails(true) && Trailing(s.kinds) < 5
  }

  /** The compactions that a run's actions call for, and those that found something to remove. */
  function CompactionsCalledFor(cfg: Config, initial: State, actions: seq<Action>): nat {
    if actions == [] then 0
    else
      var front, a := actions[..|actions| - 1], actions[|actions| - 1];
      var before := Run(cfg, initial, front);
      CompactionsCalledFor(cfg, initial, front) + if before.Some? && Compacts(before.value, a) then 1 else 0
  }

  function Removals(cfg: Config, initial: State, actions: seq<Action>): nat {
    if actions == [] then 0
    else
      var front, a := actions[..|actions| - 1], actions[|actions| - 1];
      var before := Run(cfg, initial, front);
      Removals(cfg, initial, front)
      + if before.Some? && Removes(before.value, a) then 1 else 0
  }

  lemma FailsAsCalledFor(s: State, contextLimit: bool)
    requires BoundsInv(s) && (s.phase.Opening? || s.phase.Streaming?)
    ensures StepStreamFails(s, contextLimit) ==
            if Compacts(s, StreamFails(contextLimit)) then
              s.(phase := Top, contextRetries := s.contextRetries + 1, kinds := s.kinds + [Compacted],
                 history := if |s.history| > 2 then [s.history[0]] + s.history[2..] else s.history,
                 turnOpen := false, abandoned := s.abandoned + {s.turns})
            else s.(phase := Ended(Errored))
  {
  }

  /** Any other error of the stream ends the run, with everything else as it was. */
  lemma StreamErrorsEndTheRun(cfg: Config, initial: State, actions: seq<Action>, n: nat)
    requires Initial(initial) && Run(cfg, initial, actions).Some? && n < |actions| && actions[n] == StreamFails(false)
    ensures Run(cfg, initial, actions[..n]).Some?
    ensures var before, after := Run(cfg, initial, actions[..n]).value, Run(cfg, initial, actions[..n + 1]);
            after == Some(before.(phase := Ended(Errored)))
  {
    RunPrefix(cfg, initial, actions, n + 1);
    RunPrefix(cfg, initial, actions, n);
    assert actions[..n + 1][..n] == actions[..n];
    RunKeepsBounds(cfg, initial, actions[..n]);
    var before := Run(cfg, initial, actions[..n]).value;
    hide BoundsInv, Initial;
    FailsAsCalledFor(before, false);
  }

  lemma {:induction false} RunPrefix(cfg: Config, initial: State, actions: seq<Action>, n: nat)
    requires Run(cfg, initial, actions).Some? && n <= |actions|
    ensures Run(cfg, initial, actions[..n]).Some?
    decreases |actions|
  {
    hide Step;
    if n < |actions| {
      RunPrefix(cfg, initial, actions[..|actions| - 1], n);
      assert actions[..|actions| - 1][..n] == actions[..n];
    } else {
      assert actions[..n] == actions;
    }
  }

  lemma OtherStepsKeepKinds(cfg: Config, s: State, a: Action)
    requires Step(cfg, s, a).Some? && !a.StreamFails?
    ensures var after := Step(cfg, s, a).value;
            && after.abandoned == s.abandoned
            && (after.kinds == s.kinds || exists k: TurnKind :: after.kinds == s.kinds + [k] && !k.Compacted?)
  {
    hide StepRepair, C.FinalizeToolCalls, StepTools, StepTask, Q.Perform, Q.DrainSteering, Q.DrainFollowUp;
    if a.TaskStep? { TaskFrame(cfg, s, a.task, a.act); }
    if a.Advance? && s.phase.Tools? { ToolsFrame(cfg, s); }
    if a.Advance? && s.phase.Repair? { RepairFrame(s); }
  }

  lemma RepairFrame(s: State)
    ensures StepRepair(s).abandoned == s.abandoned && StepRepair(s).kinds == s.kinds
  {
  }

  lemma KindsStep(cfg: Config, s: State, a: Action, after: State)
    requires BoundsInv(s) && Step(cfg, s, a) == Some(after)
    ensures Compactions(after.kinds) == Compactions(s.kinds) + if Compacts(s, a) then 1 else 0
    ensures a != StreamFails(true) ==> after.abandoned == s.abandoned
  {
    match a {
      case StreamFails(contextLimit) =>
        FailsAsCalledFor(s, contextLimit);
        KindSnoc(s.kinds, Compacted);
      case _ =>
        OtherStepsKeepKinds(cfg, s, a);
        hide Step, BoundsInv, Compactions;
        if k: TurnKind :| after.kinds == s.kinds + [k] && !k.Compacted? { KindSnoc(s.kinds, k); }
    }
  }

  /** A run compacts exactly when its stream fails for the context's length, up to 5 times in a row. */
  lemma {:induction false} CompactsExactlyWhenCalledFor(cfg: Config, initial: State, actions: seq<Action>)
    requires Initial(initial) && Run(cfg, initial, actions).Some?
    ensures Compactions(Run(cfg, initial, actions).value.kinds) == CompactionsCalledFor(cfg, initial, actions)
    ensures StreamFails(true) !in actions ==> Run(cfg, initial, actions).value.abandoned == {}
  {
    hide BoundsInv, Step, Compacts;
    if actions != [] {
      var front, a := actions[..|actions| - 1], actions[|actions| - 1];
      CompactsExactlyWhenCalledFor(cfg, initial, front);
      RunKeepsBounds(cfg, initial, front);
      KindsStep(cfg, Run(cfg, initial, front).value, a, Run(cfg, initial, actions).value);
    }
  }

  lemma QueueAppends(s: State, a: Action) returns (origin: Origin, messages: seq<Message>)
    requires (a.Loop? && s.phase.Top?) || (a.FollowUp? && s.phase.Settled? && StepFollowUp(s, a.fetched).Some?)
    ensures AppendsFrom(s, if a.Loop? then StepTop(s, a.cancelled, a.fetched) else StepFollowUp(s, a.fetched).value,
                        origin, messages)
  {
    hide Q.DrainSteering, Q.DrainFollowUp;
    if a.FollowUp? {
      origin, messages := FollowedUp, Q.DrainFollowUp(s.ledger.queue, a.fetched).1;
    } else if s.turns > 0 {
      origin, messages := Steered, Q.DrainSteering(s.ledger.queue, a.fetched).1;
    } else {
      origin, messages := Spoken, [];
    }
  }

  /** Steps that leave the history and the queues alone. */
  lemma QuietAppends(s: State, after: State)
    requires after.history == s.history && after.ledger == s.ledger && after.spoken == s.spoken && after.markers == s.markers
    ensures AppendsFrom(s, after, Spoken, [])
  {
  }

  lemma StepAppends(cfg: Config, s: State, a: Action, after: State) returns (origin: Origin, messages: seq<Message>)
    requires BoundsInv(s) && Step(cfg, s, a) == Some(after) && !Compacts(s, a)
    ensures AppendsFrom(s, after, origin, messages)
  {
    if a.StreamFails? { FailsAsCalledFor(s, a.contextLimit); }
    if a.TaskStep? { TaskFrame(cfg, s, a.task, a.act); }
    hide StepAdvance, StepTask, StepTop, StepFollowUp, BoundsInv, StepStreamFails, AppendsFrom, Compacts;
    match a {
      case Loop(_, _) => origin, messages := QueueAppends(s, a);
      case FollowUp(_) => origin, messages := QueueAppends(s, a);
      case Advance => origin, messages := AdvanceAppends(cfg, s, after);
      case _ =>
        QuietAppends(s, after);
        origin, messages := Spoken, [];
    }
  }

  lemma CompactionAccounts(initial: State, s: State, entries: seq<Entry>, c: nat, after: State)
    requires Accounts(initial, s, entries, c) && BoundsInv(s) && (s.phase.Opening? || s.phase.Streaming?)
    requires Compacts(s, StreamFails(true)) && after == StepStreamFails(s, true)
    ensures Accounts(initial, after, entries, if |s.history| > 2 then c + 1 else c)
  {
    FailsAsCalledFor(s, true);
    assert |EntryMessages(entries)| == |entries|;
    hide BoundsInv, StepStreamFails, EntryMessages, From, Kept, Trailing;
    if |s.history| > 2 { KeptCompacted(initial.history + EntryMessages(entries), c); }
  }

  predicate Removes(s: State, a: Action) {
    Compacts(s, a) && |s.history| > 2
  }

  lemma AccountsOneStep(cfg: Config, initial: State, s: State, a: Action, after: State, entries: seq<Entry>, c: nat)
    returns (longer: seq<Entry>)
    requires Accounts(initial, s, entries, c) && BoundsInv(s) && Step(cfg, s, a) == Some(after)
    ensures Accounts(initial, after, longer, c + if Removes(s, a) then 1 else 0)
  {
    hide Accounts, AppendsFrom, BoundsInv;
    if Compacts(s, a) {
      CompactionAccounts(initial, s, entries, c, after);
      longer := entries;
    } else {
      var origin, messages := StepAppends(cfg, s, a, after);
      AccountsStep(initial, s, entries, c, after, origin, messages);
      longer := entries + Labelled(origin, messages);
    }
  }

  lemma NothingAddedYet(initial: State)
    requires Initial(initial)
    ensures Accounts(initial, initial, [], 0)
  {
    assert initial.history + EntryMessages([]) == initial.history;
  }

  lemma {:induction false} RunAccounts(cfg: Config, initial: State, actions: seq<Action>) returns (entries: seq<Entry>)
    requires Initial(initial) && Run(cfg, initial, actions).Some?
    ensures Accounts(initial, Run(cfg, initial, actions).value, entries, Removals(cfg, initial, actions))
  {
    hide Accounts, BoundsInv, Step, Removes, AppendsFrom;
    if actions == [] {
      entries := [];
      NothingAddedYet(initial);
    } else {
      var front, a := actions[..|actions| - 1], actions[|actions| - 1];
      entries := RunAccounts(cfg, initial, front);
      RunKeepsBounds(cfg, initial, front);
      var before, after := Run(cfg, initial, front).value, Run(cfg, initial, actions).value;
      entries := AccountsOneStep(cfg, initial, before, a, after, entries, Removals(cfg, initial, front));
    }
  }

  /**
   In every run, every message a queue hands out and every turn and tool result recorded joins the history, once
   and in order, and nothing else does but repair markers. Compaction alone removes any: the oldest after the
   first, one for each time that the stream failed for its context's length, was not the sixth in a row to do so,
   and left more than two messages to choose from.
   */
  lemma HistoryIsAccountedFor(cfg: Config, initial: State, actions: seq<Action>)
    requires Initial(initial) && Run(cfg, initial, actions).Some?
    ensures exists entries ::
              Accounts(initial, Run(cfg, initial, actions).value, entries, Removals(cfg, initial, actions))
  {
    var entries := RunAccounts(cfg, initial, actions);
  }

  /** Without such a failure nothing is ever removed. */
  lemma UncompactedHistoryGrows(cfg: Config, initial: State, actions: seq<Action>)
    requires Initial(initial) && Run(cfg, initial, actions).Some? && StreamFails(true) !in actions
    ensures initial.history <= Run(cfg, initial, actions).value.history
  {
    var entries := RunAccounts(cfg, initial, actions);
    NothingRemoved(cfg, initial, actions);
  }

  lemma {:induction false} NothingRemoved(cfg: Config, initial: State, actions: seq<Action>)
    requires StreamFails(true) !in actions
    ensures Removals(cfg, initial, actions) == 0
  {
    if actions != [] { NothingRemoved(cfg, initial, actions[..|actions| - 1]); }
  }
}
