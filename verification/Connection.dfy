/**
 One JSON-RPC connection (crates/ta-jsonrpc/src/runtime.rs): the bounded outbound queue, actions deferred
 until a response, the poll mode, and the loop over incoming messages. What runs beside the loop, such as
 the writer task, handlers and spawned tasks that hold the session, interferes at its await points.
 */
module Connection {
  import opened Prelude
  import opened JsonRpc

  /** What happens on a connection, in order. Deferred actions are numbered as they are registered. */
  datatype Event =
    | Registered(action: nat)
    | Queued(message: Message)
    | Took(input: Input, batch: seq<nat>)
    | Disarmed
    | Ran(action: nat)

  // The order in which these events may come: a message's actions are taken once its handler has ended;
  // only the success response to that message releases them, and then they all run before the next one.

  datatype Phase =
    | Idle
    | Processed(input: Input, batch: seq<nat>)
    | Released(batch: seq<nat>)

  datatype Progress = Progress(pending: seq<nat>, next: nat, armed: bool, phase: Phase)

  const FRESH: Progress := Progress([], 0, true, Idle)

  /** `should_enter_persistent_poll_mode` */
  predicate EntersPollMode(persistent: Option<string>, input: Input) {
    && persistent.Some? && IsRequest(input.line) && input.line.message.rpcMethod == persistent.value
    && input.outcome.Returned?
  }

  predicate IsAnswer(m: Message) {
    m.Response? || m.Error?
  }

  function Advance(persistent: Option<string>, p: Progress, e: Event): Option<Progress> {
    match e
    case Registered(a) => if a == p.next then Some(p.(pending := p.pending + [a], next := p.next + 1)) else None
    case Took(input, batch) =>
      if batch == p.pending && (p.phase == Idle || p.phase == Released([]) || AwaitsNothing(p.phase)) then
        Some(p.(pending := [], phase := Processed(input, batch)))
      else None
    case Disarmed =>
      if p.armed && p.phase.Processed? && EntersPollMode(persistent, p.phase.input) then Some(p.(armed := false)) else None
    case Queued(m) =>
      if !IsAnswer(m) then (if m.Notification? then Some(p) else None)
      else if p.phase.Processed? && Answer(p.phase.input) == Some(m)
              && (EntersPollMode(persistent, p.phase.input) ==> !p.armed) then
        Some(p.(phase := if m.Response? then Released(p.phase.batch) else Idle))
      else None
    case Ran(a) =>
      if p.phase.Released? && p.phase.batch != [] && p.phase.batch[0] == a then
        Some(p.(phase := Released(p.phase.batch[1..])))
      else None
  }

  /** A message that is not answered is done with once it has been processed. */
  predicate AwaitsNothing(phase: Phase) {
    phase.Processed? && Answer(phase.input).None?
  }

  /** Where a log of events leaves the connection; `None` if the events are out of order. */
  function Follow(persistent: Option<string>, log: seq<Event>): Option<Progress> {
    if log == [] then Some(FRESH)
    else
      match Follow(persistent, log[..|log| - 1])
      case None => None
      case Some(before) => Advance(persistent, before, log[|log| - 1])
  }

  // What can be read off a log.

  function Inputs(log: seq<Event>): seq<Input> {
    if log == [] then []
    else Inputs(log[..|log| - 1]) + match log[|log| - 1] { case Took(input, _) => [input] case _ => [] }
  }

  function QueuedMessages(log: seq<Event>): seq<Message> {
    if log == [] then []
    else QueuedMessages(log[..|log| - 1]) + match log[|log| - 1] { case Queued(m) => [m] case _ => [] }
  }

  function RanActions(log: seq<Event>): seq<nat> {
    if log == [] then []
    else RanActions(log[..|log| - 1]) + match log[|log| - 1] { case Ran(a) => [a] case _ => [] }
  }

  lemma FollowSnoc(persistent: Option<string>, log: seq<Event>, e: Event)
    ensures Follow(persistent, log + [e])
         == match Follow(persistent, log) { case None => None case Some(p) => Advance(persistent, p, e) }
    ensures Inputs(log + [e]) == Inputs(log) + match e { case Took(input, _) => [input] case _ => [] }
    ensures QueuedMessages(log + [e]) == QueuedMessages(log) + match e { case Queued(m) => [m] case _ => [] }
    ensures RanActions(log + [e]) == RanActions(log) + match e { case Ran(a) => [a] case _ => [] }
  {
    assert (log + [e])[..|log|] == log;
  }

  lemma BesideSnoc(log: seq<Event>, e: Event)
    requires !e.Took? && !e.Ran?
    ensures Inputs(log + [e]) == Inputs(log) && RanActions(log + [e]) == RanActions(log)
  {
    assert (log + [e])[..|log|] == log;
  }

  lemma {:induction false} PrefixFollows(persistent: Option<string>, log: seq<Event>, n: nat)
    requires n <= |log| && Follow(persistent, log).Some?
    ensures Follow(persistent, log[..n]).Some?
    decreases |log|
  {
    if n < |log| {
      PrefixFollows(persistent, log[..|log| - 1], n);
      assert log[..|log| - 1][..n] == log[..n];
    } else {
      assert log[..n] == log;
    }
  }

  /** The answer that is still to be queued. */
  function Owed(phase: Phase): seq<Message> {
    if phase.Processed? && Answer(phase.input).Some? then [Answer(phase.input).value] else []
  }

  /**
   Pairing: at every point the answers queued, with the one still owed, are exactly the answers to the
   messages processed, in order. Together with `AnswersPairUp`, one per request with its id and none for
   notifications.
   */
  lemma {:induction false} AnswersAreQueuedInOrder(persistent: Option<string>, log: seq<Event>)
    requires Follow(persistent, log).Some?
    ensures Filter(IsAnswer, QueuedMessages(log)) + Owed(Follow(persistent, log).value.phase) == Answers(Inputs(log))
  {
    if log != [] {
      var front, e := log[..|log| - 1], log[|log| - 1];
      assert Follow(persistent, front).Some?;
      hide *;
      AnswersAreQueuedInOrder(persistent, front);
      assert log == front + [e];
      FollowSnoc(persistent, front, e);
      OwedStep(persistent, Follow(persistent, front).value, e);
      AnswersStep(front, e, Owed(Follow(persistent, front).value.phase), Owed(Follow(persistent, log).value.phase));
    } else {
      assert [] + Owed(Idle) == [];
    }
  }

  /** One more event, given what it does to the answer owed. */
  lemma AnswersStep(front: seq<Event>, e: Event, owed: seq<Message>, owes: seq<Message>)
    requires Filter(IsAnswer, QueuedMessages(front)) + owed == Answers(Inputs(front))
    requires OwedChange(e, owed, owes)
    ensures Filter(IsAnswer, QueuedMessages(front + [e])) + owes == Answers(Inputs(front + [e]))
  {
    FollowSnoc(None, front, e);
    hide Follow, Inputs, QueuedMessages, Filter, Answer, IsAnswer, Answers;
    var answered := Filter(IsAnswer, QueuedMessages(front));
    assert answered + [] == answered && QueuedMessages(front) + [] == QueuedMessages(front);
    assert Inputs(front) + [] == Inputs(front);
    match e {
      case Queued(m) =>
        FilterSnoc(IsAnswer, QueuedMessages(front), m);
        assert answered + [m] + [] == answered + [m];
      case Took(input, _) => AnswersSnoc(Inputs(front), input);
      case _ =>
    }
  }

  predicate OwedChange(e: Event, owed: seq<Message>, owes: seq<Message>) {
    match e
    case Queued(m) => if IsAnswer(m) then owed == [m] && owes == [] else owes == owed
    case Took(input, _) => owed == [] && owes == if Answer(input).Some? then [Answer(input).value] else []
    case _ => owes == owed
  }

  lemma AnswersSnoc(inputs: seq<Input>, input: Input)
    ensures Answers(inputs + [input]) == Answers(inputs) + if Answer(input).Some? then [Answer(input).value] else []
  {
    assert (inputs + [input])[..|inputs|] == inputs;
  }

  /** A step pays the answer owed, or starts to owe one. */
  lemma OwedStep(persistent: Option<string>, p: Progress, e: Event)
    requires Advance(persistent, p, e).Some?
    ensures OwedChange(e, Owed(p.phase), Owed(Advance(persistent, p, e).value.phase))
  {
    hide Answer, EntersPollMode;
  }

  lemma ArmedStep(persistent: Option<string>, p: Progress, e: Event)
    requires Advance(persistent, p, e).Some?
    ensures Advance(persistent, p, e).value.armed == (p.armed && e != Disarmed)
    ensures e.Disarmed? ==> p.armed
  {
    hide Answer, EntersPollMode;
  }

  lemma {:induction false} UnarmedMeansDisarmed(persistent: Option<string>, log: seq<Event>)
    requires Follow(persistent, log).Some?
    ensures !Follow(persistent, log).value.armed <==> Disarmed in log
  {
    if log != [] {
      var front, e := log[..|log| - 1], log[|log| - 1];
      UnarmedMeansDisarmed(persistent, front);
      hide Advance;
      ArmedStep(persistent, Follow(persistent, front).value, e);
      assert log == front + [e];
    }
  }

  lemma {:induction false} ProcessedIsLast(persistent: Option<string>, log: seq<Event>)
    requires Follow(persistent, log).Some? && Follow(persistent, log).value.phase.Processed?
    ensures Inputs(log) != [] && Inputs(log)[|Inputs(log)| - 1] == Follow(persistent, log).value.phase.input
  {
    var front, e := log[..|log| - 1], log[|log| - 1];
    if !e.Took? { ProcessedIsLast(persistent, front); }
  }

  predicate SomeEntersPollMode(persistent: Option<string>, inputs: seq<Input>) {
    exists k :: 0 <= k < |inputs| && EntersPollMode(persistent, inputs[k])
  }

  lemma SomeEntersSnoc(persistent: Option<string>, inputs: seq<Input>, input: Input)
    ensures SomeEntersPollMode(persistent, inputs + [input])
       <==> SomeEntersPollMode(persistent, inputs) || EntersPollMode(persistent, input)
  {
    var longer := inputs + [input];
    if SomeEntersPollMode(persistent, inputs) {
      var k :| 0 <= k < |inputs| && EntersPollMode(persistent, inputs[k]);
      assert EntersPollMode(persistent, longer[k]);
    }
    if EntersPollMode(persistent, input) { assert EntersPollMode(persistent, longer[|inputs|]); }
  }

  /**
   Whenever no answer is owed, the request timeout is disarmed iff a request for the persistent method has
   been answered by a success response.
   */
  lemma {:induction false} DisarmedExactlyByPollMode(persistent: Option<string>, log: seq<Event>)
    requires Follow(persistent, log).Some?
    ensures var p := Follow(persistent, log).value;
            && (!p.armed ==> SomeEntersPollMode(persistent, Inputs(log)))
            && (p.armed && SomeEntersPollMode(persistent, Inputs(log)) ==>
                  p.phase.Processed? && EntersPollMode(persistent, p.phase.input))
  {
    NoneEnters(persistent);
    hide SomeEntersPollMode, Answer, EntersPollMode;
    if log != [] {
      var front, e := log[..|log| - 1], log[|log| - 1];
      DisarmedExactlyByPollMode(persistent, front);
      FollowSnoc(persistent, front, e);
      assert log == front + [e];
      var before := Follow(persistent, front).value;
      assert Inputs(front) + [] == Inputs(front);
      hide Follow, Inputs;
      match e {
        case Took(input, _) =>
          SomeEntersSnoc(persistent, Inputs(front), input);
          if AwaitsNothing(before.phase) { UnansweredNeverEnters(persistent, before.phase.input); }
        case Disarmed =>
          ProcessedIsLast(persistent, front);
          var inputs := Inputs(front);
          SomeEntersSnoc(persistent, inputs[..|inputs| - 1], before.phase.input);
          assert inputs == inputs[..|inputs| - 1] + [before.phase.input];
        case _ =>
      }
    }
  }

  /** A request for the method whose handler returned a value. */
  predicate Polls(input: Input, rpcMethod: string) {
    match input
    case Input(Decoded(Request(_, asked, _)), Returned(_)) => asked == rpcMethod
    case _ => false
  }

  lemma PollsAreAnswered(persistent: Option<string>, input: Input)
    ensures EntersPollMode(persistent, input) <==> persistent.Some? && Polls(input, persistent.value)
    ensures persistent.Some? && Polls(input, persistent.value) ==>
              Answer(input) == Some(Response(input.line.message.id, input.outcome.value))
  {
  }

  lemma {:induction false} AnswersContain(inputs: seq<Input>, k: nat)
    requires k < |inputs| && Answer(inputs[k]).Some?
    ensures Answer(inputs[k]).value in Answers(inputs)
  {
    hide Answer;
    if k < |inputs| - 1 { AnswersContain(inputs[..|inputs| - 1], k); }
  }

  /**
   In the messages themselves: once no answer is owed, the request timeout is disarmed iff there is a persistent
   method, and a request for that very method was answered by a response that is queued.
   */
  lemma DisarmedExactlyByAnsweredPolls(persistent: Option<string>, log: seq<Event>)
    requires Follow(persistent, log).Some? && Owed(Follow(persistent, log).value.phase) == []
    ensures Disarmed in log <==>
            persistent.Some? && exists k ::
              && 0 <= k < |Inputs(log)| && Polls(Inputs(log)[k], persistent.value)
              && Response(Inputs(log)[k].line.message.id, Inputs(log)[k].outcome.value) in QueuedMessages(log)
  {
    DisarmedExactlyByPollMode(persistent, log);
    UnarmedMeansDisarmed(persistent, log);
    AnswersAreQueuedInOrder(persistent, log);
    var inputs, phase := Inputs(log), Follow(persistent, log).value.phase;
    assert Filter(IsAnswer, QueuedMessages(log)) + [] == Filter(IsAnswer, QueuedMessages(log));
    if phase.Processed? { PollsAreAnswered(persistent, phase.input); }
    hide Follow, Inputs, QueuedMessages, Answer, EntersPollMode, Polls, Answers, IsAnswer;
    if Disarmed in log {
      var k :| 0 <= k < |inputs| && EntersPollMode(persistent, inputs[k]);
      PollsAreAnswered(persistent, inputs[k]);
      AnswersContain(inputs, k);
      FilterMember(IsAnswer, QueuedMessages(log), Answer(inputs[k]).value);
    }
    if persistent.Some? && exists k :: 0 <= k < |inputs| && Polls(inputs[k], persistent.value) {
      var k :| 0 <= k < |inputs| && Polls(inputs[k], persistent.value);
      PollsAreAnswered(persistent, inputs[k]);
    }
  }

  /** Without a persistent method, or with requests for other methods only, the timeout stays armed. */
  lemma OtherMethodsStayArmed(persistent: Option<string>, log: seq<Event>)
    requires Follow(persistent, log).Some?
    requires persistent.Some? ==> forall input | input in Inputs(log) && IsRequest(input.line) ::
                                    input.line.message.rpcMethod != persistent.value
    ensures Disarmed !in log && Follow(persistent, log).value.armed
  {
    DisarmedExactlyByPollMode(persistent, log);
    UnarmedMeansDisarmed(persistent, log);
    hide Follow, Inputs, Answer;
    forall k | 0 <= k < |Inputs(log)| ensures !EntersPollMode(persistent, Inputs(log)[k]) {
      PollsAreAnswered(persistent, Inputs(log)[k]);
      assert Inputs(log)[k] in Inputs(log);
    }
  }

  lemma NoneEnters(persistent: Option<string>)
    ensures !SomeEntersPollMode(persistent, [])
  {
  }

  lemma UnansweredNeverEnters(persistent: Option<string>, input: Input)
    requires Answer(input).None?
    ensures !EntersPollMode(persistent, input)
  {
  }

  /** Disarming is the last change of mode: it happens at most once. */
  lemma DisarmedAtMostOnce(persistent: Option<string>, log: seq<Event>, i: nat, j: nat)
    requires Follow(persistent, log).Some? && i < j < |log| && log[i] == Disarmed
    ensures log[j] != Disarmed
  {
    PrefixFollows(persistent, log, j);
    PrefixFollows(persistent, log, j + 1);
    UnarmedMeansDisarmed(persistent, log[..j]);
    assert log[..j][i] == Disarmed;
    assert log[..j + 1][..j] == log[..j];
  }

  // Deferred actions.

  /** Action `a` ran under the success response to the very message it was taken with. */
  ghost predicate RanUnderItsResponse(log: seq<Event>, p: int, a: nat, q: int, r: int) {
    && 0 <= q < r < p <= |log|
    && log[q].Took? && a in log[q].batch
    && log[r].Queued? && log[r].message.Response? && Answer(log[q].input) == Some(log[r].message)
    && forall k | q < k < p :: !log[k].Took?
  }

  /** What the current phase says about the log: where its batch was taken, and its response queued. */
  ghost predicate Explained(log: seq<Event>, phase: Phase) {
    && (phase.Processed? ==> exists q :: TakenAt(log, q, phase.batch) && log[q].input == phase.input)
    && (phase.Released? ==> forall a | a in phase.batch :: exists q, r :: RanUnderItsResponse(log, |log|, a, q, r))
  }

  ghost predicate TakenAt(log: seq<Event>, q: int, batch: seq<nat>) {
    && 0 <= q < |log| && log[q].Took? && (forall a | a in batch :: a in log[q].batch)
    && forall k | q < k < |log| :: !log[k].Took?
  }

  lemma StillUnderItsResponse(log: seq<Event>, e: Event, a: nat, q: int, r: int)
    requires RanUnderItsResponse(log, |log|, a, q, r) && !e.Took?
    ensures RanUnderItsResponse(log + [e], |log| + 1, a, q, r)
  {
  }

  /** A step out of `Processed` either stays there or releases the batch by this message's response. */
  lemma ProcessedStep(persistent: Option<string>, p: Progress, e: Event)
    requires Advance(persistent, p, e).Some? && !e.Took?
    ensures var phase := Advance(persistent, p, e).value.phase;
            match p.phase {
              case Idle => phase == Idle
              case Processed(input, batch) =>
                || phase == p.phase
                || phase == Idle
                || (phase == Released(batch) && e.Queued? && e.message.Response? && Answer(input) == Some(e.message))
              case Released(batch) => phase.Released? && forall a | a in phase.batch :: a in batch
            }
  {
    hide Answer, EntersPollMode;
  }

  lemma ProcessedIsExplained(log: seq<Event>, e: Event, input: Input, batch: seq<nat>, phase: Phase)
    requires Explained(log, Processed(input, batch)) && !e.Took?
    requires phase == Processed(input, batch) || phase == Idle ||
             (phase == Released(batch) && e.Queued? && e.message.Response? && Answer(input) == Some(e.message))
    ensures Explained(log + [e], phase)
  {
    hide Answer;
    var longer := log + [e];
    var q :| TakenAt(log, q, batch) && log[q].input == input;
    assert TakenAt(longer, q, batch);
    if phase.Released? {
      forall a | a in batch ensures exists q, r :: RanUnderItsResponse(longer, |longer|, a, q, r) {
        assert RanUnderItsResponse(longer, |longer|, a, q, |log|);
      }
    }
  }

  lemma ReleasedIsExplained(log: seq<Event>, e: Event, batch: seq<nat>, rest: seq<nat>)
    requires Explained(log, Released(batch)) && !e.Took? && forall a | a in rest :: a in batch
    ensures Explained(log + [e], Released(rest))
  {
    hide Answer;
    var longer := log + [e];
    forall a | a in rest ensures exists q, r :: RanUnderItsResponse(longer, |longer|, a, q, r) {
      var q, r :| RanUnderItsResponse(log, |log|, a, q, r);
      StillUnderItsResponse(log, e, a, q, r);
    }
  }

  lemma {:induction false} PhaseIsExplained(persistent: Option<string>, log: seq<Event>)
    requires Follow(persistent, log).Some?
    ensures Explained(log, Follow(persistent, log).value.phase)
  {
    if log != [] {
      var front, e := log[..|log| - 1], log[|log| - 1];
      assert log == front + [e];
      FollowSnoc(persistent, front, e);
      hide Advance, Explained, Follow, Answer;
      PhaseIsExplained(persistent, front);
      var before, after := Follow(persistent, front).value, Follow(persistent, log).value;
      if e.Took? {
        TakingIsExplained(persistent, front, before, e);
      } else {
        ProcessedStep(persistent, before, e);
        match before.phase {
          case Idle => NothingToExplain(log);
          case Processed(input, batch) => ProcessedIsExplained(front, e, input, batch, after.phase);
          case Released(batch) => ReleasedIsExplained(front, e, batch, after.phase.batch);
        }
      }
    } else {
      NothingToExplain(log);
    }
  }

  lemma TakingIsExplained(persistent: Option<string>, front: seq<Event>, p: Progress, e: Event)
    requires e.Took? && Advance(persistent, p, e).Some?
    ensures Explained(front + [e], Advance(persistent, p, e).value.phase)
  {
    hide Answer;
    assert TakenAt(front + [e], |front|, e.batch);
  }

  lemma NothingToExplain(log: seq<Event>)
    ensures Explained(log, Idle)
  {
  }

  /**
   A deferred action only runs after the success response to the message it was taken with was queued, and
   before any later message is processed: no other message's response ever releases it.
   */
  lemma RunsUnderItsOwnResponse(persistent: Option<string>, log: seq<Event>, p: nat)
    requires Follow(persistent, log).Some? && p < |log| && log[p].Ran?
    ensures exists q, r :: RanUnderItsResponse(log, p, log[p].action, q, r)
  {
    PrefixFollows(persistent, log, p);
    PrefixFollows(persistent, log, p + 1);
    PhaseIsExplained(persistent, log[..p]);
    assert log[..p + 1][..p] == log[..p];
    var before := Follow(persistent, log[..p]).value;
    assert before.phase.Released? && log[p].action in before.phase.batch;
    var q, r :| RanUnderItsResponse(log[..p], |log[..p]|, log[p].action, q, r);
    assert RanUnderItsResponse(log, p, log[p].action, q, r);
  }

  /** The actions waiting for their turn to run. */
  function Waiting(phase: Phase): seq<nat> {
    match phase
    case Idle => []
    case Processed(_, batch) => batch
    case Released(batch) => batch
  }

  predicate Increasing(s: seq<nat>) {
    forall i, j | 0 <= i < j < |s| :: s[i] < s[j]
  }

  /** The actions that ran, those about to run, and those pending. */
  function Live(ran: seq<nat>, p: Progress): seq<nat> {
    ran + Waiting(p.phase) + p.pending
  }

  predicate Below(s: seq<nat>, n: nat) {
    forall i | 0 <= i < |s| :: s[i] < n
  }

  /** What a step does to the actions that wait: nothing, one more, one fewer, or drop the phase's batch. */
  lemma WaitingStep(persistent: Option<string>, p: Progress, e: Event)
    requires Advance(persistent, p, e).Some?
    ensures var after := Advance(persistent, p, e).value;
            match e {
              case Registered(a) => a == p.next && after == p.(pending := p.pending + [a], next := p.next + 1)
              case Ran(a) =>
                Waiting(p.phase) == [a] + Waiting(after.phase) && after.pending == p.pending && after.next == p.next
              case _ =>
                && after.next == p.next
                && (Waiting(after.phase) + after.pending == Waiting(p.phase) + p.pending
                    || Waiting(after.phase) + after.pending == p.pending)
            }
  {
    hide Answer, EntersPollMode;
  }

  lemma IncreasingSnoc(s: seq<nat>, n: nat)
    requires Increasing(s) && Below(s, n)
    ensures Increasing(s + [n]) && Below(s + [n], n + 1)
  {
  }

  lemma LiveStep(persistent: Option<string>, ran: seq<nat>, p: Progress, e: Event)
    requires Advance(persistent, p, e).Some?
    requires Increasing(Live(ran, p)) && Below(Live(ran, p), p.next)
    ensures var after := Advance(persistent, p, e).value;
            var now := Live(ran + match e { case Ran(a) => [a] case _ => [] }, after);
            Increasing(now) && Below(now, after.next)
  {
    hide Advance, Waiting, Increasing, Below;
    WaitingStep(persistent, p, e);
    var after := Advance(persistent, p, e).value;
    var waiting := Waiting(p.phase);
    match e {
      case Registered(a) =>
        IncreasingSnoc(ran + waiting + p.pending, a);
        assert Live(ran + [], after) == ran + waiting + p.pending + [a];
      case Ran(a) => assert Live(ran + [a], after) == ran + waiting + p.pending;
      case _ =>
        Thinned(ran, waiting, p.pending, p.next);
        assert Live(ran + [], after) == ran + (Waiting(after.phase) + after.pending);
        assert ran + waiting + p.pending == ran + (waiting + p.pending);
    }
  }

  /** Actions run in the order they were registered, so none runs twice. */
  lemma {:induction false} ActionsRunInOrderOnce(persistent: Option<string>, log: seq<Event>)
    requires Follow(persistent, log).Some?
    ensures var p := Follow(persistent, log).value;
            Increasing(Live(RanActions(log), p)) && Below(Live(RanActions(log), p), p.next)
  {
    if log != [] {
      var front, e := log[..|log| - 1], log[|log| - 1];
      ActionsRunInOrderOnce(persistent, front);
      assert log == front + [e];
      FollowSnoc(persistent, front, e);
      hide Follow, Advance, Live, RanActions, Increasing, Below;
      LiveStep(persistent, RanActions(front), Follow(persistent, front).value, e);
    }
  }

  lemma Thinned(a: seq<nat>, b: seq<nat>, c: seq<nat>, n: nat)
    requires Increasing(a + b + c) && Below(a + b + c, n)
    ensures Increasing(a + c) && Below(a + c, n)
  {
    var long, short := a + b + c, a + c;
    forall i, j | 0 <= i < j < |short| ensures short[i] < short[j] {
      var i2, j2 := if i < |a| then i else i + |b|, if j < |a| then j else j + |b|;
      assert long[i2] == short[i] && long[j2] == short[j];
    }
    forall i | 0 <= i < |short| ensures short[i] < n {
      assert long[if i < |a| then i else i + |b|] == short[i];
    }
  }

  lemma RunsAtMostOnce(persistent: Option<string>, log: seq<Event>)
    requires Follow(persistent, log).Some?
    ensures Increasing(RanActions(log))
  {
    ActionsRunInOrderOnce(persistent, log);
    var ran, p := RanActions(log), Follow(persistent, log).value;
    assert forall i | 0 <= i < |ran| :: ran[i] == Live(ran, p)[i];
  }

  // What becomes of a deferred action, read off the log: everything turns on the first message taken after it.

  datatype Fate = Unregistered | Pending | TakenWith(input: Input)

  function NextFate(fate: Fate, e: Event, a: nat): Fate {
    match e
    case Registered(b) => if b == a && fate.Unregistered? then Pending else fate
    case Took(input, _) => if fate.Pending? then TakenWith(input) else fate
    case _ => fate
  }

  function FateOf(log: seq<Event>, a: nat): Fate {
    if log == [] then Unregistered else NextFate(FateOf(log[..|log| - 1], a), log[|log| - 1], a)
  }

  predicate Succeeds(input: Input) {
    Answer(input).Some? && Answer(input).value.Response?
  }

  /** Where an action stands, as its fate says: `ran` if it has run. */
  predicate Stands(p: Progress, fate: Fate, a: nat, ran: bool) {
    match fate
    case Unregistered => p.next <= a && a !in p.pending && a !in Waiting(p.phase) && !ran
    case Pending => a < p.next && a in p.pending && a !in Waiting(p.phase) && !ran
    case TakenWith(input) =>
      && a < p.next && a !in p.pending
      && (a in Waiting(p.phase) ==> if p.phase.Processed? then p.phase.input == input else Succeeds(input))
      && (ran ==> Succeeds(input))
      && (Succeeds(input) ==> ran || a in Waiting(p.phase))
  }

  lemma StandsStep(persistent: Option<string>, p: Progress, e: Event, fate: Fate, a: nat, ran: bool)
    requires Advance(persistent, p, e).Some? && Stands(p, fate, a, ran)
    ensures Stands(Advance(persistent, p, e).value, NextFate(fate, e, a), a, ran || e == Ran(a))
  {
    hide Answer, EntersPollMode;
  }

  lemma {:induction false} ActionStands(persistent: Option<string>, log: seq<Event>, a: nat)
    requires Follow(persistent, log).Some?
    ensures Stands(Follow(persistent, log).value, FateOf(log, a), a, Ran(a) in log)
  {
    if log != [] {
      var front, e := log[..|log| - 1], log[|log| - 1];
      ActionStands(persistent, front, a);
      assert log == front + [e];
      hide Stands, Advance;
      StandsStep(persistent, Follow(persistent, front).value, e, FateOf(front, a), a, Ran(a) in front);
    }
  }

  /** A fate changes twice: by the action's registration, and by the next message taken. */
  lemma {:induction false} FateKeeps(log: seq<Event>, n: nat, a: nat)
    requires n <= |log| && !FateOf(log[..n], a).Unregistered?
    ensures FateOf(log[..n], a).TakenWith? ==> FateOf(log, a) == FateOf(log[..n], a)
    ensures FateOf(log[..n], a).Pending? && (forall k | n <= k < |log| :: !log[k].Took?) ==> FateOf(log, a) == Pending
    decreases |log|
  {
    if n < |log| {
      var front := log[..|log| - 1];
      assert front[..n] == log[..n];
      FateKeeps(front, n, a);
    } else {
      assert log[..n] == log;
    }
  }

  /** `q` is the first message taken after index `i`. */
  predicate FirstTake(log: seq<Event>, i: int, q: int) {
    0 <= i < q < |log| && log[q].Took? && forall k | i < k < q :: !log[k].Took?
  }

  lemma RegisteredIsPending(persistent: Option<string>, log: seq<Event>, i: nat)
    requires Follow(persistent, log).Some? && i < |log| && log[i].Registered?
    ensures FateOf(log[..i + 1], log[i].action) == Pending
  {
    var a, before := log[i].action, log[..i];
    assert log[..i + 1] == before + [log[i]];
    PrefixFollows(persistent, log, i);
    PrefixFollows(persistent, log, i + 1);
    FollowSnoc(persistent, before, log[i]);
    ActionStands(persistent, before, a);
    assert FateOf(before, a).Unregistered?;
  }

  lemma TakenFate(persistent: Option<string>, log: seq<Event>, i: nat, q: nat)
    requires Follow(persistent, log).Some? && FirstTake(log, i, q) && log[i].Registered?
    ensures FateOf(log[..q], log[i].action) == Pending
    ensures FateOf(log, log[i].action) == TakenWith(log[q].input)
  {
    var a := log[i].action;
    RegisteredIsPending(persistent, log, i);
    assert log[..q][..i + 1] == log[..i + 1];
    FateKeeps(log[..q], i + 1, a);
    assert log[..q + 1][..q] == log[..q];
    FateKeeps(log, q + 1, a);
  }

  /** An action taken with one message is not taken with a later one. */
  lemma TakenAtMostOnce(persistent: Option<string>, log: seq<Event>, q: nat, k: nat, a: nat)
    requires Follow(persistent, log).Some? && q < k < |log| && log[q].Took? && log[k].Took? && a in log[q].batch
    ensures a !in log[k].batch
  {
    TakesPending(persistent, log, q);
    TakesPending(persistent, log, k);
    ActionStands(persistent, log[..q], a);
    ActionStands(persistent, log[..k], a);
    assert log[..q + 1][..q] == log[..q] && log[..k][..q + 1] == log[..q + 1];
    assert FateOf(log[..q], a).Pending?;
    FateKeeps(log[..k], q + 1, a);
  }

  lemma TakesPending(persistent: Option<string>, log: seq<Event>, q: nat)
    requires Follow(persistent, log).Some? && q < |log| && log[q].Took?
    ensures Follow(persistent, log[..q]).Some? && log[q].batch == Follow(persistent, log[..q]).value.pending
  {
    PrefixFollows(persistent, log, q);
    PrefixFollows(persistent, log, q + 1);
    assert log[..q + 1] == log[..q] + [log[q]];
    FollowSnoc(persistent, log[..q], log[q]);
  }

  /**
   The fate of a deferred action, whoever registered it and when: it is taken with the first message taken after
   its registration and with no other, and it runs iff that message's answer is a success response, once that
   message is done with; before that it can only run if it is. So one that another task registers between two
   requests is dropped when the next message happens to fail or to be a notification.
   */
  lemma RunsExactlyIfItsMessageSucceeds(persistent: Option<string>, log: seq<Event>, i: nat, q: nat)
    requires Follow(persistent, log).Some? && FirstTake(log, i, q) && log[i].Registered?
    ensures forall k | 0 <= k < |log| && log[k].Took? :: log[i].action in log[k].batch <==> k == q
    ensures Ran(log[i].action) in log ==> Succeeds(log[q].input)
    ensures Settled(Follow(persistent, log).value.phase) ==> (Ran(log[i].action) in log <==> Succeeds(log[q].input))
  {
    var a := log[i].action;
    TakenFate(persistent, log, i, q);
    TakesPending(persistent, log, q);
    ActionStands(persistent, log[..q], a);
    ActionStands(persistent, log, a);
    forall k | 0 <= k < |log| && log[k].Took? ensures a in log[k].batch <==> k == q {
      if k != q && a in log[k].batch { TakenAtMostOnce(persistent, log, if k < q then k else q, if k < q then q else k, a); }
    }
  }

  /** And one after which no message was taken has not run. */
  lemma UntakenHasNotRun(persistent: Option<string>, log: seq<Event>, i: nat)
    requires Follow(persistent, log).Some? && i < |log| && log[i].Registered?
    requires forall k | i < k < |log| :: !log[k].Took?
    ensures Ran(log[i].action) !in log && log[i].action in Follow(persistent, log).value.pending
  {
    RegisteredIsPending(persistent, log, i);
    FateKeeps(log, i + 1, log[i].action);
    ActionStands(persistent, log, log[i].action);
  }

  // The connection runtime.

  datatype QueueError = Backpressure | Disconnected

  datatype SessionError = ConnectionClosed | OutboundBackpressure

  /** What others do at an await point: the writer, handlers, and tasks that hold the session. */
  datatype Interference = Interference(
    written: nat, writerStops: bool, deferred: nat, notifications: seq<(string, Option<string>)>, closes: bool)

  /**
   What happens beside the loop while a message is handled: during its handler, after its actions were taken,
   and while its answer is drained; then each action that runs may do something to the session as well.
   `process_message` itself can fail, once the handler has done what it did.
   */
  datatype Surroundings = Surroundings(
    handling: Interference, processFails: bool, taken: Interference, draining: Interference, drainFails: bool,
    actionEffects: seq<Interference>)

  /** Nothing in it can close the connection. */
  predicate Silent(i: Interference) {
    i.notifications == [] && !i.closes
  }

  predicate AllSilent(around: Surroundings) {
    && Silent(around.handling) && Silent(around.taken) && Silent(around.draining)
    && forall i | i in around.actionEffects :: Silent(i)
  }

  /** What the wait for the next message brings; `DrainFailed` ends the loop before it starts to wait. */
  datatype Read =
    | DrainFailed
    | ReadFailed
    | Timeout
    | EndOfStream
    | Received(input: Input, around: Surroundings)

  /** One turn of the loop, as its surroundings shape it. */
  datatype Round = Round(before: Interference, read: Read)

  predicate Undisturbed(round: Round) {
    Silent(round.before) && (round.read.Received? ==> AllSilent(round.read.around))
  }

  datatype LoopError = DrainError | ReadError | ProcessError | OutboundError(error: QueueError)

  /** `StillOpen` is a loop that has not ended: nothing more has arrived. */
  datatype Exit = Ended(sawMessage: bool) | Failed(error: LoopError) | StillOpen

  /** How a turn of the loop ends. */
  datatype RoundEnd = GoesOn | StreamEnds | Fails(error: LoopError)

  /** The actions registered beside the loop while an answer is queued and drained, and `batch` actions run. */
  function DeferredBeside(input: Input, batch: nat, around: Surroundings, r: Result<(), LoopError>): nat {
    (if r.Err? && r.error.OutboundError? then 0 else around.draining.deferred)
    + (if r.Ok? && Succeeds(input) then DeferredBy(around.actionEffects, batch) else 0)
  }

  /** The actions registered after those of the message itself were taken. */
  function DeferredLater(input: Input, batch: nat, around: Surroundings, r: Result<(), LoopError>): nat {
    if around.processFails then 0
    else around.taken.deferred + if Answer(input).None? then 0 else DeferredBeside(input, batch, around, r)
  }

  /** The names of `count` actions registered from `first` on. */
  function Numbered(first: nat, count: nat): (names: seq<nat>)
    ensures |names| == count
  {
    if count == 0 then [] else Numbered(first, count - 1) + [first + count - 1]
  }

  /** Nothing is left to do for the last message: its answer is queued and its actions have run. */
  predicate Settled(phase: Phase) {
    phase == Idle || phase == Released([]) || AwaitsNothing(phase)
  }

  /** The messages that a run of rounds processes. */
  function Messages(rounds: seq<Round>): seq<Input> {
    if rounds == [] then []
    else
      Messages(rounds[..|rounds| - 1])
      + match rounds[|rounds| - 1].read {
          case Received(input, around) => if around.processFails then [] else [input]
          case _ => []
        }
  }

  predicate Sees(rounds: seq<Round>) {
    exists i :: 0 <= i < |rounds| && rounds[i].read.Received?
  }

  /** What the action that runs as number `k` does to the session. */
  function EffectAt(effects: seq<Interference>, k: nat): Interference {
    if k < |effects| then effects[k] else NOTHING
  }

  /** The number of actions that the first `n` to run register. */
  function DeferredBy(effects: seq<Interference>, n: nat): nat {
    if n == 0 then 0 else DeferredBy(effects, n - 1) + EffectAt(effects, n - 1).deferred
  }

  class ConnectionRuntime {
    const capacity: nat
    const persistent: Option<string>
    var isOpen: bool
    var receiving: bool
    var queue: seq<Message>
    var actions: seq<nat>
    /** Names the next deferred closure; the closures themselves are not modelled. */
    var nextAction: nat
    var armed: bool
    /** Closed by something other than the end of the loop. */
    ghost var shut: bool
    ghost var written: seq<Message>
    ghost var log: seq<Event>

    /** What was queued has been written or is in the queue, which is no longer than it may be. */
    ghost predicate Sound()
      reads this
    {
      && written + queue == QueuedMessages(log)
      && |queue| <= capacity && (shut ==> !isOpen)
    }

    /** The fields are what the log says, and the log follows the order above. */
    ghost predicate Valid()
      reads this
    {
      && Sound() && Follow(persistent, log).Some?
      && actions == Now().pending && nextAction == Now().next && armed == Now().armed
    }

    ghost function Now(): Progress
      reads this
      requires Follow(persistent, log).Some?
    {
      Follow(persistent, log).value
    }

    /** A channel of no capacity is refused by its constructor. */
    constructor (capacity: nat, persistent: Option<string>)
      requires capacity > 0
      ensures Valid() && isOpen && receiving && armed && queue == [] && log == [] && written == [] && !shut
      ensures actions == [] && nextAction == 0
      ensures this.capacity == capacity && this.persistent == persistent
    {
      this.capacity, this.persistent := capacity, persistent;
      isOpen, receiving, queue, armed := true, true, [], true;
      actions, nextAction := [], 0;
      written, log, shut := [], [], false;
    }

    method Close()
      requires Valid()
      modifies `isOpen
      ensures Valid() && !isOpen
    {
      isOpen := false;
    }

    /** `enqueue_outbound_message`: a full queue closes the connection. */
    method EnqueueMessage(m: Message) returns (r: Result<(), QueueError>)
      requires Sound()
      modifies `isOpen, `queue, `shut, `log
      ensures Sound()
      ensures old(Valid() && Advance(persistent, Now(), Queued(m)).Some?) ==> Valid()
      ensures r == if !receiving then Err(Disconnected)
                   else if |old(queue)| == capacity then Err(Backpressure)
                   else Ok(())
      ensures isOpen == (old(isOpen) && r != Err(Backpressure)) && shut == (old(shut) || r == Err(Backpressure))
      ensures queue == if r.Ok? then old(queue) + [m] else old(queue)
      ensures log == if r.Ok? then old(log) + [Queued(m)] else old(log)
    {
      FollowSnoc(persistent, log, Queued(m));
      hide Follow, Advance, QueuedMessages;
      if !receiving {
        r := Err(Disconnected);
      } else if |queue| == capacity {
        isOpen, shut := false, true;
        r := Err(Backpressure);
      } else {
        assert written + (queue + [m]) == written + queue + [m];
        if Valid() && Advance(persistent, Now(), Queued(m)).Some? { QueuedKeepsPending(persistent, Now(), m); }
        queue, log := queue + [m], log + [Queued(m)];
        r := Ok(());
      }
    }

    /** `send_notification` */
    method SendNotification(m: Message) returns (r: Result<(), SessionError>)
      requires Valid() && m.Notification?
      modifies `isOpen, `queue, `shut, `log
      ensures Valid()
      ensures isOpen == (old(isOpen) && r != Err(OutboundBackpressure))
      ensures shut == (old(shut) || r == Err(OutboundBackpressure))
      ensures r.Ok? <==> old(isOpen) && receiving && |old(queue)| < capacity
      ensures r == Err(OutboundBackpressure) <==> old(isOpen) && receiving && |old(queue)| == capacity
      ensures log == if r.Ok? then old(log) + [Queued(m)] else old(log)
      ensures Standing() == old(Standing())
    {
      FollowSnoc(persistent, log, Queued(m));
      BesideSnoc(log, Queued(m));
      QueuedKeepsPending(persistent, Now(), m);
      hide Follow, Advance, Inputs, RanActions, QueuedMessages;
      if !isOpen {
        r := Err(ConnectionClosed);
      } else {
        var enqueued := EnqueueMessage(m);
        r := match enqueued
          case Ok(_) => Ok(())
          case Err(Backpressure) => Err(OutboundBackpressure)
          case Err(Disconnected) => Err(ConnectionClosed);
      }
    }

    method DeferUntilResponse()
      requires Valid()
      modifies `actions, `nextAction, `log
      ensures Valid() && actions == old(actions) + [old(nextAction)] && nextAction == old(nextAction) + 1
      ensures log == old(log) + [Registered(old(nextAction))] && Standing() == old(Standing())
    {
      BesideSnoc(log, Registered(nextAction));
      FollowSnoc(persistent, log, Registered(nextAction));
      RegisteredStep(persistent, Now());
      hide Follow, QueuedMessages, Advance, Inputs, RanActions;
      log := log + [Registered(nextAction)];
      actions, nextAction := actions + [nextAction], nextAction + 1;
    }

    /** `take_after_response_actions`, after the handler for `input` has ended. */
    method TakeAfterResponseActions(ghost input: Input) returns (batch: seq<nat>)
      requires Valid() && Settled(Now().phase)
      modifies `actions, `log
      ensures Valid() && batch == old(actions) && actions == []
      ensures log == old(log) + [Took(input, batch)] && Now().phase == Processed(input, batch)
      ensures Inputs(log) == old(Inputs(log)) + [input] && RanActions(log) == old(RanActions(log))
    {
      TakenStep(persistent, Now(), input);
      FollowSnoc(persistent, log, Took(input, actions));
      hide Follow, QueuedMessages, Inputs, RanActions, Advance, Settled;
      batch := actions;
      actions, log := [], log + [Took(input, actions)];
    }

    /** `observe_message` */
    method ObserveMessage(input: Input)
      requires Valid() && Now().phase.Processed? && Now().phase.input == input
      modifies `armed, `log
      ensures Valid()
      ensures armed == (old(armed) && !EntersPollMode(persistent, input))
      ensures log == if old(armed) && !armed then old(log) + [Disarmed] else old(log)
      ensures Now().phase == old(Now().phase)
      ensures Inputs(log) == old(Inputs(log)) && RanActions(log) == old(RanActions(log))
    {
      FollowSnoc(persistent, log, Disarmed);
      BesideSnoc(log, Disarmed);
      hide Follow, QueuedMessages, Inputs, RanActions;
      if armed && EntersPollMode(persistent, input) {
        armed, log := false, log + [Disarmed];
      }
    }

    /** Where the loop stands: the messages processed and the actions run, the last one's phase, and the mode. */
    ghost function Standing(): (seq<Input>, seq<nat>, Phase, bool)
      reads this
      requires Follow(persistent, log).Some?
    {
      (Inputs(log), RanActions(log), Now().phase, armed)
    }

    method Interfere(i: Interference)
      requires Valid()
      modifies this
      ensures Valid() && Standing() == old(Standing())
      ensures nextAction == old(nextAction) + i.deferred
      ensures actions == old(actions) + Numbered(old(nextAction), i.deferred)
      ensures receiving == (old(receiving) && !i.writerStops)
      ensures i.notifications == [] ==> |queue| <= |old(queue)|
      ensures Silent(i) ==> isOpen == old(isOpen) && shut == old(shut)
      ensures (isOpen ==> old(isOpen)) && (old(shut) ==> shut) && (!isOpen && old(isOpen) ==> shut)
    {
      hide Follow, Inputs, RanActions, QueuedMessages;
      Write(i.written);
      if i.writerStops { receiving := false; }
      for k := 0 to i.deferred
        invariant Valid() && Standing() == old(Standing()) && isOpen == old(isOpen) && shut == old(shut)
        invariant nextAction == old(nextAction) + k && actions == old(actions) + Numbered(old(nextAction), k)
        invariant receiving == (old(receiving) && !i.writerStops) && |queue| <= |old(queue)|
      {
        DeferUntilResponse();
      }
      NotifyAll(i.notifications);
      if i.closes {
        Close();
        shut := true;
      }
    }

    method NotifyAll(notifications: seq<(string, Option<string>)>)
      requires Valid()
      modifies `isOpen, `queue, `shut, `log
      ensures Valid() && Standing() == old(Standing())
      ensures notifications == [] ==> isOpen == old(isOpen) && shut == old(shut) && queue == old(queue)
      ensures (isOpen ==> old(isOpen)) && (old(shut) ==> shut) && (!isOpen && old(isOpen) ==> shut)
    {
      hide Follow, Inputs, RanActions, QueuedMessages;
      for k := 0 to |notifications|
        invariant Valid() && Standing() == old(Standing())
        invariant k == 0 ==> isOpen == old(isOpen) && shut == old(shut) && queue == old(queue)
        invariant (isOpen ==> old(isOpen)) && (old(shut) ==> shut) && (!isOpen && old(isOpen) ==> shut)
      {
        var _ := SendNotification(Notification(notifications[k].0, notifications[k].1));
      }
    }

    /** The writer task sends the oldest messages of the queue. */
    method Write(count: nat)
      requires Valid()
      modifies `queue, `written
      ensures Valid()
      ensures old(written) <= written && written + queue == old(written + queue) && |queue| <= |old(queue)|
      ensures |queue| == if count < |old(queue)| then |old(queue)| - count else 0
    {
      hide Follow, QueuedMessages;
      var n := if count < |queue| then count else |queue|;
      assert written + queue == written + queue[..n] + queue[n..];
      written, queue := written + queue[..n], queue[n..];
    }

    /** One deferred action runs. */
    method RunAction(action: nat, ghost rest: seq<nat>)
      requires Valid() && Now().phase == Released([action] + rest)
      modifies `log
      ensures Valid() && Now().phase == Released(rest)
      ensures Inputs(log) == old(Inputs(log)) && RanActions(log) == old(RanActions(log)) + [action]
    {
      FollowSnoc(persistent, log, Ran(action));
      RanStep(persistent, Now(), [action] + rest);
      hide Follow, Advance, QueuedMessages, Inputs, RanActions;
      assert ([action] + rest)[1..] == rest;
      assert Inputs(log) + [] == Inputs(log) && QueuedMessages(log) + [] == QueuedMessages(log);
      log := log + [Ran(action)];
    }

    /** One deferred action runs, and does something to the session. */
    method RunWithEffect(action: nat, ghost rest: seq<nat>, effect: Interference)
      requires Valid() && Now().phase == Released([action] + rest)
      modifies this
      ensures Valid() && Now().phase == Released(rest) && armed == old(armed)
      ensures Inputs(log) == old(Inputs(log)) && RanActions(log) == old(RanActions(log)) + [action]
      ensures nextAction == old(nextAction) + effect.deferred
      ensures actions == old(actions) + Numbered(old(nextAction), effect.deferred)
      ensures Silent(effect) ==> isOpen == old(isOpen) && shut == old(shut)
      ensures (isOpen ==> old(isOpen)) && (old(shut) ==> shut) && (!isOpen && old(isOpen) ==> shut)
    {
      hide Follow, Inputs, RanActions, QueuedMessages, Silent, Sound, Numbered, Advance;
      RunAction(action, rest);
      Interfere(effect);
    }

    /** `run_after_response_actions`: all of the batch, whatever each of them does. */
    method RunAfterResponseActions(batch: seq<nat>, effects: seq<Interference>)
      requires Valid() && Now().phase == Released(batch)
      modifies this
      ensures Valid() && Now().phase == Released([])
      ensures Inputs(log) == old(Inputs(log)) && RanActions(log) == old(RanActions(log)) + batch && armed == old(armed)
      ensures var more := DeferredBy(effects, |batch|);
              nextAction == old(nextAction) + more && actions == old(actions) + Numbered(old(nextAction), more)
      ensures (forall i | i in effects :: Silent(i)) ==> isOpen == old(isOpen) && shut == old(shut)
      ensures (isOpen ==> old(isOpen)) && (old(shut) ==> shut) && (!isOpen && old(isOpen) ==> shut)
    {
      NumberedNone(nextAction);
      WholeBatch(batch);
      assert RanActions(log) + [] == RanActions(log) && actions + [] == actions;
      assert Silent(NOTHING) && DeferredBy(effects, 0) == 0;
      hide Follow, Inputs, RanActions, QueuedMessages, Silent, Sound, Numbered, Advance, NOTHING;
      for k := 0 to |batch|
        invariant Valid() && Now().phase == Released(batch[k..])
        invariant Inputs(log) == old(Inputs(log)) && RanActions(log) == old(RanActions(log)) + batch[..k]
        invariant armed == old(armed)
        invariant nextAction == old(nextAction) + DeferredBy(effects, k)
        invariant actions == old(actions) + Numbered(old(nextAction), DeferredBy(effects, k))
        invariant (forall i | i in effects :: Silent(i)) ==> isOpen == old(isOpen) && shut == old(shut)
        invariant (isOpen ==> old(isOpen)) && (old(shut) ==> shut) && (!isOpen && old(isOpen) ==> shut)
      {
        BatchStep(batch, k);
        ConcatAssociates(old(RanActions(log)), batch[..k], [batch[k]]);
        var effect := EffectAt(effects, k);
        NumberedJoins(old(nextAction), DeferredBy(effects, k), effect.deferred);
        var before := Numbered(old(nextAction), DeferredBy(effects, k));
        ConcatAssociates(old(actions), before, Numbered(nextAction, effect.deferred));
        RunWithEffect(batch[k], batch[k + 1..], effect);
      }
    }

    /** Queueing the answer, once the mode has been updated. */
    method QueueAnswer(input: Input, ghost batch: seq<nat>) returns (r: Result<(), QueueError>)
      requires Valid() && Now().phase == Processed(input, batch) && Answer(input).Some?
      requires EntersPollMode(persistent, input) ==> !armed
      modifies `isOpen, `queue, `shut, `log
      ensures Valid()
      ensures Now().phase ==
              if r.Err? then Processed(input, batch) else if Answer(input).value.Response? then Released(batch) else Idle
      ensures Inputs(log) == old(Inputs(log)) && RanActions(log) == old(RanActions(log))
      ensures isOpen == (old(isOpen) && r != Err(Backpressure)) && shut == (old(shut) || r == Err(Backpressure))
      ensures r.Err? <==> !receiving || |old(queue)| == capacity
    {
      var m := Answer(input).value;
      AnswerStep(persistent, Now(), input, batch);
      FollowSnoc(persistent, log, Queued(m));
      BesideSnoc(log, Queued(m));
      hide Follow, QueuedMessages, Inputs, RanActions, Advance, Answer, EntersPollMode;
      r := EnqueueMessage(m);
    }

    /** The rest of the body of the loop for a message that is answered. */
    method Respond(input: Input, batch: seq<nat>, around: Surroundings) returns (r: Result<(), LoopError>)
      requires Valid() && Now().phase == Processed(input, batch) && Answer(input).Some?
      requires EntersPollMode(persistent, input) ==> !armed
      modifies this
      ensures Valid() && Inputs(log) == old(Inputs(log)) && armed == old(armed)
      ensures r.Ok? ==> Settled(Now().phase)
      ensures RanActions(log) == old(RanActions(log)) + if r.Ok? && Succeeds(input) then batch else []
      ensures var beside := DeferredBeside(input, |batch|, around, r);
              nextAction == old(nextAction) + beside && actions == old(actions) + Numbered(old(nextAction), beside)
      ensures r.Err? ==> r.error.OutboundError? || (r.error.DrainError? && around.drainFails)
      ensures r.Err? && r.error.OutboundError? <==> Owed(Now().phase) != []
      ensures r.Err? && r.error.OutboundError? <==> !old(receiving) || |old(queue)| == capacity
      ensures r == Err(OutboundError(Backpressure)) ==> !isOpen && shut
      ensures AllSilent(around) && r != Err(OutboundError(Backpressure)) ==> shut == old(shut)
      ensures (isOpen ==> old(isOpen)) && (old(shut) ==> shut) && (!isOpen && old(isOpen) ==> shut)
    {
      hide Follow, QueuedMessages, Inputs, RanActions, Advance, EntersPollMode, Answer, Silent, Numbered, Sound;
      hide DeferredBy;
      assert Numbered(nextAction, 0) == [] && actions + [] == actions by { NumberedNone(nextAction); }
      assert RanActions(log) + [] == RanActions(log);
      var response := Answer(input).value;
      var queued := QueueAnswer(input, batch);
      if queued.Err? { return Err(OutboundError(queued.error)); }
      ghost var first := nextAction;
      Interfere(around.draining);
      if around.drainFails { return Err(DrainError); }
      if response.Response? {
        NumberedJoins(first, around.draining.deferred, DeferredBy(around.actionEffects, |batch|));
        RunAfterResponseActions(batch, around.actionEffects);
      }
      r := Ok(());
    }

    /** The handler has ended: its actions are taken and the mode is updated. */
    method Process(input: Input, taken: Interference) returns (batch: seq<nat>)
      requires Valid() && Settled(Now().phase)
      modifies this
      ensures Valid() && Now().phase == Processed(input, batch) && batch == old(actions)
      ensures Inputs(log) == old(Inputs(log)) + [input] && RanActions(log) == old(RanActions(log))
      ensures armed == (old(armed) && !EntersPollMode(persistent, input))
      ensures nextAction == old(nextAction) + taken.deferred && actions == Numbered(old(nextAction), taken.deferred)
      ensures receiving == (old(receiving) && !taken.writerStops)
      ensures taken.notifications == [] ==> |queue| <= |old(queue)|
      ensures Silent(taken) ==> isOpen == old(isOpen) && shut == old(shut)
      ensures (isOpen ==> old(isOpen)) && (old(shut) ==> shut) && (!isOpen && old(isOpen) ==> shut)
    {
      hide Follow, QueuedMessages, Inputs, RanActions, Advance, EntersPollMode, Answer, Silent, Numbered, Sound, Settled;
      batch := TakeAfterResponseActions(input);
      Interfere(taken);
      ObserveMessage(input);
    }

    /** The body of the loop for one message. */
    method HandleMessage(input: Input, around: Surroundings) returns (r: Result<(), LoopError>)
      requires Valid() && Settled(Now().phase)
      modifies this
      ensures Valid() && Inputs(log) == old(Inputs(log)) + if around.processFails then [] else [input]
      ensures armed == (old(armed) && (around.processFails || !EntersPollMode(persistent, input)))
      ensures r == Err(ProcessError) <==> around.processFails
      ensures around.processFails ==> Settled(Now().phase)
      ensures r.Ok? ==>
                && Settled(Now().phase)
                && RanActions(log) == old(RanActions(log)) +
                     if Succeeds(input) then old(actions) + Numbered(old(nextAction), around.handling.deferred) else []
      ensures var first := old(nextAction) + around.handling.deferred;
              var later := DeferredLater(input, |old(actions)| + around.handling.deferred, around, r);
              && nextAction == first + later
              && actions == (if around.processFails then old(actions) + Numbered(old(nextAction), around.handling.deferred)
                             else Numbered(first, later))
      ensures r == Err(DrainError) ==> around.drainFails && Answer(input).Some? && Owed(Now().phase) == []
      ensures r.Err? && r.error.OutboundError? <==> Owed(Now().phase) != []
      ensures old(receiving) && |old(queue)| < capacity && WriterLives(around) ==> !(r.Err? && r.error.OutboundError?)
      ensures Answer(input).None? && WriterLives(around) ==> receiving == old(receiving) && |queue| <= |old(queue)|
      ensures r == Err(OutboundError(Backpressure)) ==> !isOpen
      ensures r.Err? ==> r.error != ReadError && RanActions(log) == old(RanActions(log))
      ensures AllSilent(around) && r != Err(OutboundError(Backpressure)) ==> shut == old(shut)
      ensures (isOpen ==> old(isOpen)) && (old(shut) ==> shut) && (!isOpen && old(isOpen) ==> shut)
    {
      hide Follow, QueuedMessages, Inputs, RanActions, Advance, EntersPollMode, Answer, Silent, Numbered, Sound;
      hide DeferredBeside;
      assert Inputs(log) + [] == Inputs(log) && RanActions(log) + [] == RanActions(log);
      NumberedNone(nextAction + around.handling.deferred);
      Interfere(around.handling);
      if around.processFails { return Err(ProcessError); }
      ghost var first := nextAction;
      var batch := Process(input, around.taken);
      if Answer(input).None? { return Ok(()); }
      r := Respond(input, batch, around);
      NumberedJoins(first, around.taken.deferred, DeferredBeside(input, |batch|, around, r));
    }

    /** One turn of the loop, up to where it continues, breaks or returns an error. */
    method RunRound(round: Round) returns (end: RoundEnd)
      requires Valid() && Settled(Now().phase) && (isOpen || shut)
      modifies this
      ensures Valid() && (isOpen || shut)
      ensures Inputs(log) == old(Inputs(log)) + Messages([round])
      ensures end.GoesOn? ==> Continues(round) && Settled(Now().phase)
      ensures end.StreamEnds? ==> round.read.EndOfStream? && Settled(Now().phase)
      ensures end.Fails? ==> CanFail(round, end.error)
      ensures end == RoundEnd.Fails(OutboundError(Backpressure)) ==> shut
      ensures end.Fails? && end.error.OutboundError? <==> Owed(Now().phase) != []
      ensures Undisturbed(round) && end != RoundEnd.Fails(OutboundError(Backpressure)) ==> shut == old(shut)
    {
      hide Follow, Inputs, RanActions, QueuedMessages, Answer, EntersPollMode, AllSilent, Silent, Numbered;
      assert [round][..0] == [] && [] + Messages([round]) == Messages([round]);
      assert Inputs(log) + [] == Inputs(log);
      Interfere(round.before);
      match round.read {
        case DrainFailed => return Fails(DrainError);
        case ReadFailed => return Fails(ReadError);
        case Timeout => return GoesOn;
        case EndOfStream => return StreamEnds;
        case Received(input, around) =>
          var handled := HandleMessage(input, around);
          return if handled.Err? then RoundEnd.Fails(handled.error) else GoesOn;
      }
    }

    /** `run_jsonrpc_connection_loop`, over what its surroundings bring in each round. */
    method RunConnectionLoop(rounds: seq<Round>) returns (exit: Exit, used: nat)
      requires Valid() && Now().phase == Idle && (isOpen || shut)
      modifies this
      ensures Valid() && used <= |rounds|
      ensures Inputs(log) == old(Inputs(log)) + Messages(rounds[..used])
      ensures forall i | 0 <= i < used && (i < used - 1 || exit.StillOpen?) :: Continues(rounds[i])
      ensures exit.StillOpen? ==> isOpen && used == |rounds|
      ensures exit.Ended? ==> !isOpen && (exit.sawMessage <==> Sees(rounds[..used]))
      ensures exit.Ended? ==> shut || (used > 0 && rounds[used - 1].read.EndOfStream?)
      ensures exit.Failed? ==> used > 0 && CanFail(rounds[used - 1], exit.error)
      ensures exit.Failed? ==> (isOpen <==> !shut)
      ensures exit == Failed(OutboundError(Backpressure)) ==> shut
      ensures (forall i | 0 <= i < used :: Undisturbed(rounds[i])) && exit != Failed(OutboundError(Backpressure)) ==>
                shut == old(shut)
      ensures !exit.Failed? ==> Settled(Now().phase)
      ensures exit.Failed? && exit.error.OutboundError? <==> Owed(Now().phase) != []
    {
      hide Follow, Inputs, RanActions, QueuedMessages, Answer, EntersPollMode, AllSilent, Silent, Numbered,
           Continues, Undisturbed, Messages;
      var sawMessage := false;
      used := 0;
      NoMessages();
      assert rounds[..0] == [] && Inputs(log) + [] == Inputs(log);
      while true
        invariant used <= |rounds|
        invariant Valid() && Settled(Now().phase) && (isOpen || shut)
        invariant Inputs(log) == old(Inputs(log)) + Messages(rounds[..used])
        invariant sawMessage <==> Sees(rounds[..used])
        invariant forall i | 0 <= i < used :: Continues(rounds[i])
        invariant (forall i | 0 <= i < used :: Undisturbed(rounds[i])) ==> shut == old(shut)
        decreases |rounds| - used
      {
        if !isOpen { break; }
        if used == |rounds| { return StillOpen, used; }
        var round := rounds[used];
        assert rounds[..used + 1] == rounds[..used] + [round];
        MessagesSnoc(rounds[..used], round);
        ConcatAssociates(old(Inputs(log)), Messages(rounds[..used]), Messages([round]));
        used := used + 1;
        var end := RunRound(round);
        sawMessage := sawMessage || round.read.Received?;
        match end {
          case GoesOn =>
          case StreamEnds => break;
          case Fails(error) => return Failed(error), used;
        }
      }
      Close();
      exit := Ended(sawMessage);
    }
  }

  lemma NoMessages()
    ensures Messages([]) == []
  {
  }

  lemma MessagesSnoc(rounds: seq<Round>, round: Round)
    ensures Messages(rounds + [round]) == Messages(rounds) + Messages([round])
    ensures Sees(rounds + [round]) <==> Sees(rounds) || round.read.Received?
  {
    var longer := rounds + [round];
    assert longer[..|rounds|] == rounds && longer[|rounds|] == round && [round][..0] == [];
    if i :| 0 <= i < |rounds| && rounds[i].read.Received? { assert longer[i].read.Received?; }
  }

  lemma WholeBatch(batch: seq<nat>)
    ensures batch[0..] == batch && batch[..0] == [] && batch[..|batch|] == batch && batch[|batch|..] == []
  {
  }

  lemma BatchStep(batch: seq<nat>, k: nat)
    requires k < |batch|
    ensures batch[k..] == [batch[k]] + batch[k + 1..] && batch[..k + 1] == batch[..k] + [batch[k]]
  {
  }

  lemma NumberedNone(first: nat)
    ensures Numbered(first, 0) == []
  {
  }

  lemma {:induction false} NumberedJoins(first: nat, m: nat, n: nat)
    ensures Numbered(first, m) + Numbered(first + m, n) == Numbered(first, m + n)
  {
    if n > 0 { NumberedJoins(first, m, n - 1); }
  }

  /** Nothing can keep the answer from being queued, if there is room for it. */
  predicate WriterLives(around: Surroundings) {
    && !around.handling.writerStops && !around.taken.writerStops
    && around.handling.notifications == [] && around.taken.notifications == []
  }

  /** The loop can go on after this round. */
  predicate Continues(round: Round) {
    round.read.Timeout? || (round.read.Received? && !round.read.around.processFails)
  }

  /** The round can end the loop with this error. */
  predicate CanFail(round: Round, error: LoopError) {
    match error
    case ReadError => round.read.ReadFailed?
    case DrainError => round.read.DrainFailed? || (round.read.Received? && round.read.around.drainFails)
    case ProcessError => round.read.Received? && round.read.around.processFails
    case OutboundError(_) => round.read.Received? && !round.read.around.processFails
  }

  const NOTHING: Interference := Interference(0, false, 0, [], false)

  const QUIET: Surroundings := Surroundings(NOTHING, false, NOTHING, NOTHING, false, [])

  const PING: Input := Input(Decoded(Notification("ping", None)), Returned(""))

  const GET: Input := Input(Decoded(Request(IntegerId(1), "get", None)), Returned("got"))

  method DeferThenNotification() returns (connection: ConnectionRuntime, r: Result<(), LoopError>)
    ensures fresh(connection) && r.Ok? && connection.Valid() && Settled(connection.Now().phase)
    ensures Inputs(connection.log) == [PING] && RanActions(connection.log) == []
    ensures connection.nextAction == 1 && connection.actions == []
    ensures connection.receiving && connection.queue == [] && connection.capacity == 256
  {
    assert DeferredLater(PING, 1, QUIET, Ok(())) == 0 && Answer(PING).None?;
    assert Inputs([]) == [] && RanActions([]) == [] && Settled(FRESH.phase) && WriterLives(QUIET);
    assert QUIET.handling.deferred == 0 && !QUIET.drainFails && !QUIET.processFails;
    NumberedNone(1);
    connection := new ConnectionRuntime(256, None);
    connection.DeferUntilResponse();
    hide DeferredLater, DeferredBy, Numbered, Answer, Succeeds, Inputs, RanActions, QueuedMessages, Follow;
    hide Advance, WriterLives, AllSilent, EntersPollMode, PING, QUIET;
    r := connection.HandleMessage(PING, QUIET);
  }

  /**
   An action that is registered before a notification comes in is gone after it: the next request is answered
   by a success response, and still the action has not run.
   */
  method DeferredActionIsDropped() returns (connection: ConnectionRuntime, first: Result<(), LoopError>,
                                            second: Result<(), LoopError>)
    ensures first.Ok? && second.Ok? && connection.Valid()
    ensures Inputs(connection.log) == [PING, GET] && Answer(PING).None? && Succeeds(GET)
    ensures connection.nextAction == 1 && connection.actions == [] && RanActions(connection.log) == []
  {
    assert Answer(PING).None? && Succeeds(GET) && WriterLives(QUIET);
    assert DeferredBy([], 0) == 0 && DeferredLater(GET, 0, QUIET, Ok(())) == 0;
    assert QUIET.handling.deferred == 0 && !QUIET.drainFails && !QUIET.processFails;
    NumberedNone(1);
    connection, first := DeferThenNotification();
    hide DeferredLater, DeferredBy, Numbered, Answer, Succeeds, Inputs, RanActions, QueuedMessages, Follow;
    hide Advance, WriterLives, AllSilent, EntersPollMode, PING, GET, QUIET;
    second := connection.HandleMessage(GET, QUIET);
  }

  /** A connection whose first read fails is given up by the loop, and still says that it is open. */
  method FailedReadStaysOpen() returns (connection: ConnectionRuntime, exit: Exit)
    ensures exit == Failed(ReadError) && connection.isOpen
  {
    connection := new ConnectionRuntime(256, None);
    var rounds := [Round(NOTHING, ReadFailed)];
    var used;
    exit, used := connection.RunConnectionLoop(rounds);
    assert rounds[0].read == ReadFailed && Undisturbed(rounds[0]);
  }

  lemma TakenStep(persistent: Option<string>, p: Progress, input: Input)
    requires Settled(p.phase)
    ensures Advance(persistent, p, Took(input, p.pending)) == Some(p.(pending := [], phase := Processed(input, p.pending)))
  {
  }

  lemma AnswerStep(persistent: Option<string>, p: Progress, input: Input, batch: seq<nat>)
    requires p.phase == Processed(input, batch) && Answer(input).Some?
    requires EntersPollMode(persistent, input) ==> !p.armed
    ensures Advance(persistent, p, Queued(Answer(input).value))
         == Some(p.(phase := if Answer(input).value.Response? then Released(batch) else Idle))
  {
  }

  lemma RanStep(persistent: Option<string>, p: Progress, batch: seq<nat>)
    requires p.phase == Released(batch) && batch != []
    ensures Advance(persistent, p, Ran(batch[0])) == Some(p.(phase := Released(batch[1..])))
  {
  }

  lemma RegisteredStep(persistent: Option<string>, p: Progress)
    ensures Advance(persistent, p, Registered(p.next)) == Some(p.(pending := p.pending + [p.next], next := p.next + 1))
  {
  }

  lemma QueuedKeepsPending(persistent: Option<string>, p: Progress, m: Message)
    requires Advance(persistent, p, Queued(m)).Some?
    ensures var after := Advance(persistent, p, Queued(m)).value;
            && after.pending == p.pending && after.armed == p.armed && after.next == p.next
            && (m.Notification? ==> after == p)
  {
  }
}
