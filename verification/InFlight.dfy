/**
 The in-flight cap of the JSON-RPC server (crates/ta-jsonrpc/src/server.rs): one accept loop and any number
 of connection tasks share one atomic counter; each atomic access is a step, in any order. No task panics.
 */
module InFlight {
  import opened Prelude
  import opened JsonRpc

  /** Where the accept loop stands with the connection it has accepted. */
  datatype Acceptor =
    | Listening
    | Accepted(connection: nat)
    | Reserved(connection: nat)
    | Overfull(connection: nat)
    | Rejecting(connection: nat)

  /** A connection task: `Fresh` has read no line, `Ending` is done and has not yet given back its place. */
  datatype Task = Fresh | Running | Ending

  /** What the accept loop decided, and how many connections held a place when it read the counter. */
  datatype Event = Admitted(connection: nat, served: nat) | Overloaded(connection: nat, served: nat)

  /** The first line of a connection, and the answer that was sent to it. */
  datatype FirstLine = FirstLine(connection: nat, input: Input, answer: Option<Message>)

  datatype State = State(
    inFlight: nat, acceptor: Acceptor, tasks: map<nat, Task>, nextConnection: nat,
    log: seq<Event>, firstLines: seq<FirstLine>)

  datatype Action =
    | Accept
    | Reserve
    | Spawn
    | GiveBack
    | Reject(line: Option<Input>)
    | ReadFirstLine(connection: nat, input: Input)
    | FinishConnection(connection: nat)
    | Release(connection: nat)

  const START: State := State(0, Listening, map[], 1, [], [])

  /** The connections that hold a place. */
  function Served(tasks: map<nat, Task>): nat {
    |tasks|
  }

  function Step(max: nat, s: State, a: Action): Option<State> {
    match a
    case Accept =>
      if s.acceptor.Listening? then
        Some(s.(acceptor := Accepted(s.nextConnection), nextConnection := s.nextConnection + 1))
      else None
    case Reserve =>
      if s.acceptor.Accepted? then
        var c := s.acceptor.connection;
        if s.inFlight >= max then
          Some(s.(inFlight := s.inFlight + 1, acceptor := Overfull(c), log := s.log + [Overloaded(c, Served(s.tasks))]))
        else Some(s.(inFlight := s.inFlight + 1, acceptor := Reserved(c), log := s.log + [Admitted(c, Served(s.tasks))]))
      else None
    case Spawn =>
      if s.acceptor.Reserved? then
        var c := s.acceptor.connection;
        Some(s.(acceptor := Listening, tasks := s.tasks[c := Fresh]))
      else None
    case GiveBack =>
      if s.acceptor.Overfull? && s.inFlight > 0 then
        Some(s.(inFlight := s.inFlight - 1, acceptor := Rejecting(s.acceptor.connection)))
      else None
    case Reject(line) =>
      if s.acceptor.Rejecting? then
        var c := s.acceptor.connection;
        var read := if line.Some? then [FirstLine(c, line.value, FirstAnswer(true, line.value))] else [];
        Some(s.(acceptor := Listening, firstLines := s.firstLines + read))
      else None
    case ReadFirstLine(c, input) =>
      if c in s.tasks && s.tasks[c].Fresh? then
        Some(s.(tasks := s.tasks[c := Running],
                firstLines := s.firstLines + [FirstLine(c, input, FirstAnswer(false, input))]))
      else None
    case FinishConnection(c) =>
      if c in s.tasks && !s.tasks[c].Ending? then Some(s.(tasks := s.tasks[c := Ending])) else None
    case Release(c) =>
      if c in s.tasks && s.tasks[c].Ending? && s.inFlight > 0 then
        Some(s.(inFlight := s.inFlight - 1, tasks := s.tasks - {c}))
      else None
  }

  function Run(max: nat, actions: seq<Action>): Option<State> {
    if actions == [] then Some(START)
    else
      match Run(max, actions[..|actions| - 1])
      case None => None
      case Some(before) => Step(max, before, actions[|actions| - 1])
  }

  /** The accept loop's own increment: in place for good on its way to a task, or about to be taken back. */
  function Transient(acceptor: Acceptor): nat {
    if acceptor.Reserved? || acceptor.Overfull? then 1 else 0
  }

  predicate Counted(max: nat, s: State) {
    && s.inFlight == Served(s.tasks) + Transient(s.acceptor)
    && Served(s.tasks) <= max
    && (s.acceptor.Reserved? ==> Served(s.tasks) < max)
  }

  predicate Named(s: State) {
    && (forall c | c in s.tasks :: c < s.nextConnection)
    && (s.acceptor.Listening? || (s.acceptor.connection < s.nextConnection && s.acceptor.connection !in s.tasks))
  }

  /** Each decision turned on one thing: whether the cap was full when the counter was read. */
  predicate DecidedByCap(max: nat, log: seq<Event>) {
    forall i | 0 <= i < |log| :: log[i].served <= max && (log[i].Overloaded? <==> log[i].served == max)
  }

  predicate Inv(max: nat, s: State) {
    Counted(max, s) && Named(s) && DecidedByCap(max, s.log)
  }

  lemma SizeWithout(tasks: map<nat, Task>, c: nat)
    requires c in tasks
    ensures Served(tasks) > 0 && Served(tasks - {c}) == Served(tasks) - 1
  {
    assert (tasks - {c}).Keys == tasks.Keys - {c};
  }

  lemma SizeWith(tasks: map<nat, Task>, c: nat, t: Task)
    ensures Served(tasks[c := t]) == Served(tasks) + if c in tasks then 0 else 1
  {
    assert tasks[c := t].Keys == tasks.Keys + {c};
  }

  lemma StepKeepsCount(max: nat, s: State, a: Action)
    requires Counted(max, s) && Named(s) && Step(max, s, a).Some?
    ensures Counted(max, Step(max, s, a).value)
  {
    hide Served;
    match a {
      case Spawn => SizeWith(s.tasks, s.acceptor.connection, Fresh);
      case ReadFirstLine(c, _) => SizeWith(s.tasks, c, Running);
      case FinishConnection(c) => SizeWith(s.tasks, c, Ending);
      case Release(c) => SizeWithout(s.tasks, c);
      case _ =>
    }
  }

  lemma StepKeepsNames(max: nat, s: State, a: Action)
    requires Named(s) && Step(max, s, a).Some?
    ensures Named(Step(max, s, a).value)
  {
  }

  lemma StepKeepsDecisions(max: nat, s: State, a: Action)
    requires Counted(max, s) && DecidedByCap(max, s.log) && Step(max, s, a).Some?
    ensures DecidedByCap(max, Step(max, s, a).value.log)
  {
  }

  lemma StepKeepsInv(max: nat, s: State, a: Action)
    requires Inv(max, s) && Step(max, s, a).Some?
    ensures Inv(max, Step(max, s, a).value)
  {
    hide Step, Counted, Named, DecidedByCap;
    StepKeepsCount(max, s, a);
    StepKeepsNames(max, s, a);
    StepKeepsDecisions(max, s, a);
  }

  /**
   In every interleaving of accepts, rejections and finishing connections: no more connections are served
   than the cap allows, the counter is the number of connections that have not given back their place, plus
   the accept loop's one transient increment, and a connection is refused exactly if the cap is full when the
   counter is read.
   */
  lemma {:induction false} CapHolds(max: nat, actions: seq<Action>)
    requires Run(max, actions).Some?
    ensures Inv(max, Run(max, actions).value)
  {
    if actions != [] {
      CapHolds(max, actions[..|actions| - 1]);
      StepKeepsInv(max, Run(max, actions[..|actions| - 1]).value, actions[|actions| - 1]);
    }
  }

  /** The guards of the two decrements never block: the counter cannot go below zero. */
  lemma CounterNeverUnderflows(max: nat, actions: seq<Action>, c: nat)
    requires Run(max, actions).Some?
    ensures var s := Run(max, actions).value;
            && (s.acceptor.Overfull? ==> Step(max, s, GiveBack).Some?)
            && (c in s.tasks && s.tasks[c].Ending? ==> Step(max, s, Release(c)).Some?)
  {
    CapHolds(max, actions);
    var s := Run(max, actions).value;
    if c in s.tasks { SizeWithout(s.tasks, c); }
  }

  /** In every interleaving each step is possible exactly where it belongs: none waits for anything else. */
  lemma StepsArePossible(max: nat, actions: seq<Action>, a: Action)
    requires Run(max, actions).Some?
    ensures var s := Run(max, actions).value;
            Step(max, s, a).Some? <==>
            match a {
              case Accept => s.acceptor.Listening?
              case Reserve => s.acceptor.Accepted?
              case Spawn => s.acceptor.Reserved?
              case GiveBack => s.acceptor.Overfull?
              case Reject(_) => s.acceptor.Rejecting?
              case ReadFirstLine(c, _) => c in s.tasks && s.tasks[c].Fresh?
              case FinishConnection(c) => c in s.tasks && (s.tasks[c].Fresh? || s.tasks[c].Running?)
              case Release(c) => c in s.tasks && s.tasks[c].Ending?
            }
  {
    CapHolds(max, actions);
    var s := Run(max, actions).value;
    if a.Release? && a.connection in s.tasks { SizeWithout(s.tasks, a.connection); }
  }

  /** A connection below the cap is served: with a place free, reserving leads to a task. */
  lemma FreePlaceIsServed(max: nat, actions: seq<Action>)
    requires Run(max, actions).Some? && Run(max, actions).value.acceptor.Accepted?
    ensures var s := Run(max, actions).value;
            Served(s.tasks) < max <==> Step(max, s, Reserve).value.acceptor.Reserved?
  {
    CapHolds(max, actions);
  }

  /** Connections are decided one at a time, in the order they were accepted: none is both served and refused. */
  lemma {:induction false} EachConnectionIsDecidedOnce(max: nat, actions: seq<Action>)
    requires Run(max, actions).Some?
    ensures var s := Run(max, actions).value;
            && (forall i, j | 0 <= i < j < |s.log| :: s.log[i].connection < s.log[j].connection)
            && (forall i | 0 <= i < |s.log| :: s.log[i].connection < s.nextConnection)
            && (s.acceptor.Accepted? ==>
                  && s.acceptor.connection < s.nextConnection
                  && forall i | 0 <= i < |s.log| :: s.log[i].connection < s.acceptor.connection)
  {
    if actions != [] { EachConnectionIsDecidedOnce(max, actions[..|actions| - 1]); }
  }

  // How first lines are answered.

  predicate DecidedAs(log: seq<Event>, connection: nat, overloaded: bool) {
    exists i :: 0 <= i < |log| && log[i].connection == connection && log[i].Overloaded? == overloaded
  }

  /** Connections are where the log says, and each first line is answered by the side that decided it. */
  predicate AnsweredAsDecided(s: State) {
    && (forall c | c in s.tasks :: DecidedAs(s.log, c, false))
    && (s.acceptor.Reserved? ==> DecidedAs(s.log, s.acceptor.connection, false))
    && (s.acceptor.Overfull? || s.acceptor.Rejecting? ==> DecidedAs(s.log, s.acceptor.connection, true))
    && (forall k | 0 <= k < |s.firstLines| :: LineAsDecided(s.log, s.firstLines[k]))
  }

  predicate LineAsDecided(log: seq<Event>, x: FirstLine) {
    exists overloaded :: DecidedAs(log, x.connection, overloaded) && x.answer == FirstAnswer(overloaded, x.input)
  }

  lemma DecidedSnoc(log: seq<Event>, e: Event, connection: nat, overloaded: bool)
    ensures DecidedAs(log, connection, overloaded) ==> DecidedAs(log + [e], connection, overloaded)
    ensures DecidedAs(log + [e], e.connection, e.Overloaded?)
  {
    var longer := log + [e];
    assert longer[|log|] == e;
    if DecidedAs(log, connection, overloaded) {
      var i :| 0 <= i < |log| && log[i].connection == connection && log[i].Overloaded? == overloaded;
      assert longer[i] == log[i];
    }
  }

  lemma LineSnoc(log: seq<Event>, e: Event, x: FirstLine)
    requires LineAsDecided(log, x)
    ensures LineAsDecided(log + [e], x)
  {
    hide DecidedAs, FirstAnswer;
    var overloaded :| DecidedAs(log, x.connection, overloaded) && x.answer == FirstAnswer(overloaded, x.input);
    DecidedSnoc(log, e, x.connection, overloaded);
  }

  lemma StepKeepsAnswers(max: nat, s: State, a: Action)
    requires AnsweredAsDecided(s) && Step(max, s, a).Some?
    ensures AnsweredAsDecided(Step(max, s, a).value)
  {
    hide DecidedAs, FirstAnswer, Served;
    var after := Step(max, s, a).value;
    if a.Reserve? {
      var e := after.log[|s.log|];
      assert after.log == s.log + [e] && e.connection == s.acceptor.connection;
      DecidedSnoc(s.log, e, e.connection, e.Overloaded?);
      forall c | c in s.tasks ensures DecidedAs(after.log, c, false) { DecidedSnoc(s.log, e, c, false); }
      forall k | 0 <= k < |s.firstLines| ensures LineAsDecided(after.log, s.firstLines[k]) {
        LineSnoc(s.log, e, s.firstLines[k]);
      }
    } else if after.firstLines != s.firstLines {
      var x := after.firstLines[|s.firstLines|];
      assert LineAsDecided(s.log, x);
    }
  }

  lemma {:induction false} RunKeepsAnswers(max: nat, actions: seq<Action>)
    requires Run(max, actions).Some?
    ensures AnsweredAsDecided(Run(max, actions).value)
  {
    if actions != [] {
      RunKeepsAnswers(max, actions[..|actions| - 1]);
      StepKeepsAnswers(max, Run(max, actions[..|actions| - 1]).value, actions[|actions| - 1]);
    }
  }

  lemma DecidedOnce(log: seq<Event>, i: nat, overloaded: bool)
    requires forall i, j | 0 <= i < j < |log| :: log[i].connection < log[j].connection
    requires i < |log| && DecidedAs(log, log[i].connection, overloaded)
    ensures log[i].Overloaded? == overloaded
  {
    var j :| 0 <= j < |log| && log[j].connection == log[i].connection && log[j].Overloaded? == overloaded;
    assert i == j;
  }

  /**
   The first line of a connection over every interleaving: there is one decision about its connection, and an
   answer is missing exactly if the line is a notification and the cap was not full when the counter was read.
   So a notification is answered, which section 4.1 of the JSON-RPC 2.0 Specification forbids, exactly when the
   connection found the cap full.
   */
  lemma {:induction false} FirstLineAnsweredByTheCap(max: nat, actions: seq<Action>, k: nat)
    requires Run(max, actions).Some? && k < |Run(max, actions).value.firstLines|
    ensures var s := Run(max, actions).value;
            var x := s.firstLines[k];
            && (exists i :: 0 <= i < |s.log| && s.log[i].connection == x.connection)
            && forall i | 0 <= i < |s.log| && s.log[i].connection == x.connection ::
                 && x.answer == FirstAnswer(s.log[i].served == max, x.input)
                 && (x.answer.None? <==> IsNotification(x.input.line) && s.log[i].served < max)
  {
    CapHolds(max, actions);
    RunKeepsAnswers(max, actions);
    EachConnectionIsDecidedOnce(max, actions);
    var s := Run(max, actions).value;
    hide Run, Answer, OverloadAnswer, FirstAnswer;
    var x := s.firstLines[k];
    assert LineAsDecided(s.log, x);
    var overloaded :| DecidedAs(s.log, x.connection, overloaded) && x.answer == FirstAnswer(overloaded, x.input);
    FirstLineUnanswered(overloaded, x.input);
    forall i | 0 <= i < |s.log| && s.log[i].connection == x.connection
      ensures (s.log[i].served == max) == overloaded && s.log[i].served <= max
    {
      DecidedOnce(s.log, i, overloaded);
    }
  }

  /** A connection's line is its first only before it was served or rejected. */
  predicate LinesAreFirst(s: State) {
    && (forall i, j | 0 <= i < j < |s.firstLines| :: s.firstLines[i].connection != s.firstLines[j].connection)
    && (forall i | 0 <= i < |s.firstLines| :: s.firstLines[i].connection < s.nextConnection)
    && (forall i | 0 <= i < |s.firstLines| && s.firstLines[i].connection in s.tasks ::
          !s.tasks[s.firstLines[i].connection].Fresh?)
    && (!s.acceptor.Listening? ==>
          forall i | 0 <= i < |s.firstLines| :: s.firstLines[i].connection != s.acceptor.connection)
  }

  lemma StepKeepsLinesFirst(max: nat, s: State, a: Action)
    requires LinesAreFirst(s) && Named(s) && Step(max, s, a).Some?
    ensures LinesAreFirst(Step(max, s, a).value)
  {
    hide Served, FirstAnswer;
  }

  /** Over every interleaving, no connection has two first lines. */
  lemma {:induction false} OneFirstLineEach(max: nat, actions: seq<Action>)
    requires Run(max, actions).Some?
    ensures LinesAreFirst(Run(max, actions).value)
  {
    if actions != [] {
      var front := actions[..|actions| - 1];
      OneFirstLineEach(max, front);
      CapHolds(max, front);
      StepKeepsLinesFirst(max, Run(max, front).value, actions[|actions| - 1]);
    }
  }

  lemma Extend(max: nat, actions: seq<Action>, a: Action, s: State)
    requires Run(max, actions) == Some(s) && Step(max, s, a).Some?
    ensures Run(max, actions + [a]) == Step(max, s, a)
  {
    assert (actions + [a])[..|actions|] == actions;
  }

  /** `n` connections hold a place and no line has been read. */
  predicate Filled(s: State, n: nat) {
    s.acceptor == Listening && s.inFlight == Served(s.tasks) == n && s.nextConnection == n + 1 && s.firstLines == []
  }

  /** The places of the cap can be taken one by one. */
  lemma {:induction false} PlacesFill(max: nat, n: nat) returns (actions: seq<Action>, s: State)
    requires n <= max
    ensures Run(max, actions) == Some(s) && Filled(s, n)
  {
    if n == 0 {
      actions, s := [], START;
    } else {
      var earlier, before := PlacesFill(max, n - 1);
      CapHolds(max, earlier);
      hide Run;
      Extend(max, earlier, Accept, before);
      var accepted := Step(max, before, Accept).value;
      Extend(max, earlier + [Accept], Reserve, accepted);
      var reserved := Step(max, accepted, Reserve).value;
      Extend(max, earlier + [Accept] + [Reserve], Spawn, reserved);
      SizeWith(before.tasks, n, Fresh);
      actions, s := earlier + [Accept] + [Reserve] + [Spawn], Step(max, reserved, Spawn).value;
    }
  }

  /** It happens, whatever the cap and the notification: once every place is taken, it is answered by an error. */
  lemma NotificationAnswered(max: nat, input: Input)
    requires IsNotification(input.line)
    ensures exists actions ::
              && Run(max, actions).Some?
              && Run(max, actions).value.firstLines == [FirstLine(max + 1, input, Some(OverloadAnswer(input.line)))]
    ensures OverloadAnswer(input.line).Error? && OverloadAnswer(input.line).errorId == None
  {
    var a, s := PlacesFill(max, max);
    hide Run, OverloadAnswer, FirstAnswer, Step, Filled;
    var accepted, overfull, rejecting, answered := FullRejects(max, s, input);
    Extend(max, a, Accept, s);
    Extend(max, a + [Accept], Reserve, accepted);
    Extend(max, a + [Accept] + [Reserve], GiveBack, overfull);
    Extend(max, a + [Accept] + [Reserve] + [GiveBack], Reject(Some(input)), rejecting);
    OverloadIsAnError(input.line);
    assert AskedId(input.line) == None;
  }

  lemma FullRejects(max: nat, s: State, input: Input)
    returns (accepted: State, overfull: State, rejecting: State, answered: State)
    requires Filled(s, max)
    ensures Step(max, s, Accept) == Some(accepted) && Step(max, accepted, Reserve) == Some(overfull)
    ensures Step(max, overfull, GiveBack) == Some(rejecting)
    ensures Step(max, rejecting, Reject(Some(input))) == Some(answered)
    ensures answered.firstLines == [FirstLine(max + 1, input, Some(OverloadAnswer(input.line)))]
  {
    hide OverloadAnswer;
    accepted := Step(max, s, Accept).value;
    overfull := Step(max, accepted, Reserve).value;
    rejecting := Step(max, overfull, GiveBack).value;
    answered := Step(max, rejecting, Reject(Some(input))).value;
  }
}
