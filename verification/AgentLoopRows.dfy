/**
 What a reader of the projected rows sees of a run, against what the model was told: the rows that the
 store completes are, line by line, the turns and tool results that the loop recorded.
 */
module AgentLoopRows {
  import opened Prelude
  import opened Wire
  import opened AgentTurns
  import opened AgentTurnsLog
  import opened AgentLoop
  import opened AgentLoopTools
  import opened AgentLoopFrames
  import S = Session
  import C = Collector

  datatype Line = Said(text: string) | Answered(callId: Option<string>, text: string)

  function LineOfRow(row: Row): seq<Line> {
    match row
    case AssistantRow(_, _, _, _, _, _, text) => [Said(text)]
    case ToolRow(_, _, _, _, itemId, _, _, output, _, _, _) => [Answered(itemId, output)]
    case PendingRow(_, _, _, _, _, _) => []
  }

  function RowLines(rows: seq<Row>): seq<Line> {
    if rows == [] then [] else RowLines(rows[..|rows| - 1]) + LineOfRow(rows[|rows| - 1])
  }

  function LineOfMessage(m: S.Message): Line {
    if m.role.Assistant? then Said(m.content) else Answered(m.toolCallId, m.content)
  }

  function SpokenLines(spoken: seq<S.Message>): seq<Line> {
    seq(|spoken|, i requires 0 <= i < |spoken| => LineOfMessage(spoken[i]))
  }

  lemma RowLinesSnoc(rows: seq<Row>, row: Option<Row>)
    ensures RowLines(rows + RowsOf(row)) == RowLines(rows) + if row.Some? then LineOfRow(row.value) else []
  {
    if row.Some? { assert (rows + [row.value])[..|rows|] == rows; } else { assert rows + [] == rows; }
  }

  // What is open in the maps for the current turn.

  function KeyOf(r: Recorder, turn: nat): TurnKey {
    TurnKey(r.sessionId, r.runId, Some(TurnId(turn)))
  }

  function ItemKey(r: Recorder, turn: nat, id: string): ToolKey {
    ToolKey(r.sessionId, r.runId, Some(TurnId(turn)), Some(id))
  }

  predicate TextIs(r: Recorder, m: InFlight, turn: nat, text: string) {
    KeyOf(r, turn) in m.turns && m.turns[KeyOf(r, turn)].text == text
  }

  predicate OutputIs(r: Recorder, m: InFlight, turn: nat, id: string, output: string) {
    ItemKey(r, turn, id) in m.tools && m.tools[ItemKey(r, turn, id)].output == output
  }

  /** Pushing one more frame of an accepted trace. */
  lemma PushedFrame(r: Recorder, trace: seq<Emission>, e: Emission)
    requires Accepted(RecordsOf(r, trace + [e]))
    ensures Accepted(RecordsOf(r, trace))
    ensures var (m, rows), rec := Project(Empty, RecordsOf(r, trace)).value, RecordOf(r, |trace|, e);
            && Apply(m, rec).Ok? && Allows(m, rec)
            && Project(Empty, RecordsOf(r, trace + [e])).value == (Apply(m, rec).value.0, rows + RowsOf(RowNow(m, rec)))
  {
    hide Apply, Allows, RowNow;
    RecordsSnoc(r, trace, e);
    ProjectSnoc(Empty, RecordsOf(r, trace), RecordOf(r, |trace|, e));
    var m, rec := Project(Empty, RecordsOf(r, trace)).value.0, RecordOf(r, |trace|, e);
    ApplyAllows(m, rec);
    ApplyRowNow(m, rec);
  }

  /** The state and the lines of an accepted trace. */
  function View(r: Recorder, trace: seq<Emission>): (v: (InFlight, seq<Line>))
    requires Accepted(RecordsOf(r, trace))
  {
    var (m, rows) := Project(Empty, RecordsOf(r, trace)).value;
    (m, RowLines(rows))
  }

  /** The lines that a record completes. */
  function NewLines(m: InFlight, rec: EventRecord): seq<Line>
    requires Allows(m, rec)
  {
    if RowNow(m, rec).Some? then LineOfRow(RowNow(m, rec).value) else []
  }

  /** Pushing one more frame: the entries change as the record says, and its lines are added. */
  lemma PushedView(r: Recorder, trace: seq<Emission>, e: Emission, turn: nat, id: string)
    requires Accepted(RecordsOf(r, trace + [e]))
    ensures Accepted(RecordsOf(r, trace)) && Allows(View(r, trace).0, RecordOf(r, |trace|, e))
    ensures View(r, trace + [e]).1 == View(r, trace).1 + NewLines(View(r, trace).0, RecordOf(r, |trace|, e))
    ensures TurnStep(View(r, trace).0.turns, View(r, trace + [e]).0.turns, RecordOf(r, |trace|, e), KeyOf(r, turn))
    ensures ToolStep(View(r, trace).0.tools, View(r, trace + [e]).0.tools, RecordOf(r, |trace|, e), ItemKey(r, turn, id))
  {
    PushedFrame(r, trace, e);
    var (m, rows) := Project(Empty, RecordsOf(r, trace)).value;
    var rec := RecordOf(r, |trace|, e);
    hide Apply, Allows, RowNow, RowLines, LineOfRow, Project, RecordsOf, RecordOf, TurnStep, ToolStep, KeyOf, ItemKey;
    ApplyTurnStep(m, rec, KeyOf(r, turn));
    ApplyToolStep(m, rec, ItemKey(r, turn, id));
    RowLinesSnoc(rows, RowNow(m, rec));
  }

  lemma TurnFrameShows(r: Recorder, m: InFlight, after: InFlight, i: nat, e: Emission, turn: nat)
    requires Allows(m, RecordOf(r, i, e)) && e.turnId == Some(TurnId(turn))
    requires TurnStep(m.turns, after.turns, RecordOf(r, i, e), KeyOf(r, turn))
    requires e.frame.AssistantTurnStarted? || e.frame.AssistantMessageDelta? || e.frame.AssistantTurnCompleted?
    ensures var more := NewLines(m, RecordOf(r, i, e));
            match e.frame {
              case AssistantTurnStarted => TextIs(r, after, turn, "") && more == []
              case AssistantMessageDelta(delta) =>
                more == [] && forall text | TextIs(r, m, turn, text) :: TextIs(r, after, turn, text + delta)
              case _ => forall text | TextIs(r, m, turn, text) :: more == [Said(text)]
            }
  {
    hide TurnId;
    if e.frame.AssistantMessageDelta? && e.frame.delta == "" {
      assert forall text: string :: text + "" == text;
    }
  }

  lemma PushedTurnFrame(r: Recorder, trace: seq<Emission>, e: Emission, turn: nat)
    requires Accepted(RecordsOf(r, trace + [e])) && e.turnId == Some(TurnId(turn))
    requires e.frame.AssistantTurnStarted? || e.frame.AssistantMessageDelta? || e.frame.AssistantTurnCompleted?
    ensures Accepted(RecordsOf(r, trace))
    ensures var ((m, lines), (after, now)) := (View(r, trace), View(r, trace + [e]));
            match e.frame {
              case AssistantTurnStarted => TextIs(r, after, turn, "") && now == lines
              case AssistantMessageDelta(delta) =>
                now == lines && forall text | TextIs(r, m, turn, text) :: TextIs(r, after, turn, text + delta)
              case _ => forall text | TextIs(r, m, turn, text) :: now == lines + [Said(text)]
            }
  {
    hide *;
    PushedView(r, trace, e, turn, "");
    TurnFrameShows(r, View(r, trace).0, View(r, trace + [e]).0, |trace|, e, turn);
    assert View(r, trace).1 + [] == View(r, trace).1;
  }

  lemma EntryKeepsItsItem(log: seq<EventRecord>, k: ToolKey)
    requires Accepted(log)
    ensures var m := Project(Empty, log).value.0; k in m.tools ==> m.tools[k].itemId == k.itemId
  {
    ProjectionReadsTheLog(log);
    assert TracksTool(Project(Empty, log).value.0, log, k);
  }

  lemma ToolFrameShows(r: Recorder, m: InFlight, after: InFlight, i: nat, e: Emission, turn: nat, id: string)
    requires Allows(m, RecordOf(r, i, e)) && e.turnId == Some(TurnId(turn)) && e.itemId == Some(id)
    requires ToolStep(m.tools, after.tools, RecordOf(r, i, e), ItemKey(r, turn, id))
    requires var k := ItemKey(r, turn, id); k in m.tools ==> m.tools[k].itemId == k.itemId
    requires e.frame.ToolCallStarted? || e.frame.ToolCallProgressed? || e.frame.ToolCallCompleted?
    ensures var more := NewLines(m, RecordOf(r, i, e));
            match e.frame {
              case ToolCallStarted(_, _) => OutputIs(r, after, turn, id, "") && more == []
              case ToolCallProgressed(delta) =>
                more == [] && forall out | OutputIs(r, m, turn, id, out) :: OutputIs(r, after, turn, id, out + delta)
              case _ => forall out | OutputIs(r, m, turn, id, out) :: more == [Answered(Some(id), out)]
            }
  {
    hide TurnId;
    if e.frame.ToolCallProgressed? && e.frame.delta == "" {
      assert forall out: string :: out + "" == out;
    }
  }

  lemma OtherOutputStays(r: Recorder, m: InFlight, after: InFlight, i: nat, e: Emission, turn: nat, id: string)
    requires ToolStep(m.tools, after.tools, RecordOf(r, i, e), ItemKey(r, turn, id))
    requires e.itemId != Some(id)
    ensures forall out | OutputIs(r, m, turn, id, out) :: OutputIs(r, after, turn, id, out)
  {
    hide TurnId;
  }

  /** A frame of a call: what it does to the output of its own call, and to that of another. */
  lemma PushedToolFrame(r: Recorder, trace: seq<Emission>, e: Emission, turn: nat, id: string, other: string)
    requires Accepted(RecordsOf(r, trace + [e])) && e.turnId == Some(TurnId(turn)) && e.itemId == Some(id)
    requires e.frame.ToolCallStarted? || e.frame.ToolCallProgressed? || e.frame.ToolCallCompleted?
    ensures Accepted(RecordsOf(r, trace))
    ensures var ((m, lines), (after, now)) := (View(r, trace), View(r, trace + [e]));
            && (other != id ==> forall out | OutputIs(r, m, turn, other, out) :: OutputIs(r, after, turn, other, out))
            && match e.frame {
                 case ToolCallStarted(_, _) => OutputIs(r, after, turn, id, "") && now == lines
                 case ToolCallProgressed(delta) =>
                   now == lines && forall out | OutputIs(r, m, turn, id, out) :: OutputIs(r, after, turn, id, out + delta)
                 case _ => forall out | OutputIs(r, m, turn, id, out) :: now == lines + [Answered(Some(id), out)]
               }
  {
    hide *;
    PushedView(r, trace, e, turn, id);
    PushedView(r, trace, e, turn, other);
    EntryInView(r, trace, ItemKey(r, turn, id));
    ToolFrameShows(r, View(r, trace).0, View(r, trace + [e]).0, |trace|, e, turn, id);
    if other != id { OtherOutputStays(r, View(r, trace).0, View(r, trace + [e]).0, |trace|, e, turn, other); }
    assert View(r, trace).1 + [] == View(r, trace).1;
  }

  lemma EntryInView(r: Recorder, trace: seq<Emission>, k: ToolKey)
    requires Accepted(RecordsOf(r, trace))
    ensures k in View(r, trace).0.tools ==> View(r, trace).0.tools[k].itemId == k.itemId
  {
    EntryKeepsItsItem(RecordsOf(r, trace), k);
  }

  /** Announcing a wait shows no line and leaves every output alone. */
  lemma PushedPending(r: Recorder, trace: seq<Emission>, e: Emission, turn: nat, id: string)
    requires Accepted(RecordsOf(r, trace + [e])) && e.frame.PendingStateChanged?
    ensures Accepted(RecordsOf(r, trace))
    ensures View(r, trace + [e]).1 == View(r, trace).1
    ensures forall out | OutputIs(r, View(r, trace).0, turn, id, out) :: OutputIs(r, View(r, trace + [e]).0, turn, id, out)
  {
    hide *;
    PushedView(r, trace, e, turn, id);
    PendingShowsNothing(r, View(r, trace).0, View(r, trace + [e]).0, |trace|, e, turn, id);
    assert View(r, trace).1 + [] == View(r, trace).1;
  }

  lemma PendingShowsNothing(r: Recorder, m: InFlight, after: InFlight, i: nat, e: Emission, turn: nat, id: string)
    requires Allows(m, RecordOf(r, i, e)) && e.frame.PendingStateChanged?
    requires ToolStep(m.tools, after.tools, RecordOf(r, i, e), ItemKey(r, turn, id))
    ensures NewLines(m, RecordOf(r, i, e)) == []
    ensures forall out | OutputIs(r, m, turn, id, out) :: OutputIs(r, after, turn, id, out)
  {
    hide TurnId;
  }

  // The invariant of a run.

  /** The rows show everything spoken, or everything but the last message. */
  predicate Shown(s: State, lines: seq<Line>) {
    lines == SpokenLines(s.spoken)
  }

  predicate LastUnshown(s: State, lines: seq<Line>) {
    s.spoken != [] && lines == SpokenLines(s.spoken[..|s.spoken| - 1])
  }

  function LastSpoken(s: State): S.Message
    requires s.spoken != []
  {
    s.spoken[|s.spoken| - 1]
  }

  /** The lines of calls whose approval was refused. */
  function RefusalLines(refused: seq<string>): seq<Line> {
    seq(|refused|, i requires 0 <= i < |refused| => Answered(Some(refused[i]), ""))
  }

  /** Every open call of the current turn has shown nothing yet. */
  predicate SilentOpen(r: Recorder, s: State, m: InFlight) {
    forall i | 0 <= i < |s.calls| && i < |s.pushed| && s.pushed[i].Started? :: OutputIs(r, m, s.turns, s.calls[i].id, "")
  }

  /** The rows show everything spoken and then the refusals, and the open calls are still silent. */
  predicate Refusing(r: Recorder, s: State, m: InFlight, lines: seq<Line>) {
    lines == SpokenLines(s.spoken) + RefusalLines(s.refused) && SilentOpen(r, s, m)
  }

  /** The run failed between recording something and showing it; no task is left to show anything. */
  predicate Stopped(s: State, lines: seq<Line>) {
    LastUnshown(s, lines) && forall i | 0 <= i < |s.tasks| :: !IsActive(s.tasks[i])
  }

  /** Approvals are refused in the tool phase or after the run has failed, and close their call. */
  predicate RefusedInv(s: State) {
    && (s.refused != [] ==> s.phase.Tools? || s.phase == Ended(Errored))
    && (s.refused != [] ==> exists i :: 0 <= i < |s.pushed| && s.pushed[i].Terminal?)
  }

  /** The calls `from..to` of the current turn are open and have shown nothing yet. */
  predicate Silent(r: Recorder, s: State, m: InFlight, from: nat, to: nat) {
    forall i | from <= i < to && i < |s.calls| :: OutputIs(r, m, s.turns, s.calls[i].id, "")
  }

  predicate Claims(r: Recorder, s: State, m: InFlight, lines: seq<Line>) {
    match s.phase
    case Ended(Errored) => Refusing(r, s, m, lines) || (s.refused == [] && Stopped(s, lines))
    case Repair => Shown(s, lines) && TextIs(r, m, s.turns, "")
    case Opening => Shown(s, lines) && TextIs(r, m, s.turns, "")
    case Streaming(g) => Shown(s, lines) && TextIs(r, m, s.turns, g.text)
    case Gathered(turn) => Shown(s, lines) && TextIs(r, m, s.turns, turn.text)
    case Recorded(_) =>
      LastUnshown(s, lines) && LastSpoken(s).role.Assistant? && TextIs(r, m, s.turns, LastSpoken(s).content)
    case Starting(next) => Shown(s, lines) && Silent(r, s, m, 0, next)
    case Tools(_) => Refusing(r, s, m, lines)
    case Reporting(at, AppendResult) => Shown(s, lines) && Silent(r, s, m, at, |s.calls|)
    case Reporting(at, PushProgress) => ResultUnshown(s, lines, at) && Silent(r, s, m, at, |s.calls|)
    case Reporting(at, PushCompletion) =>
      && ResultUnshown(s, lines, at) && Silent(r, s, m, at + 1, |s.calls|)
      && OutputIs(r, m, s.turns, s.results[at].callId, s.results[at].content)
    case _ => Shown(s, lines)
  }

  predicate ResultUnshown(s: State, lines: seq<Line>, at: nat) {
    at < |s.results| && LastUnshown(s, lines) && LastSpoken(s) == S.ToolMessage(s.results[at].callId, s.results[at].content)
  }

  predicate RowsInv(r: Recorder, s: State) {
    Accepted(RecordsOf(r, s.trace)) ==> Claims(r, s, View(r, s.trace).0, View(r, s.trace).1)
  }

  lemma SpokenSnoc(spoken: seq<S.Message>, m: S.Message)
    ensures SpokenLines(spoken + [m]) == SpokenLines(spoken) + [LineOfMessage(m)]
  {
  }

  lemma SpeakOne(s: State, after: State, lines: seq<Line>, m: S.Message)
    requires Shown(s, lines) && after.spoken == s.spoken + [m]
    ensures LastUnshown(after, lines) && LastSpoken(after) == m
  {
    assert after.spoken[..|after.spoken| - 1] == s.spoken;
  }

  lemma ShowLast(s: State, after: State, lines: seq<Line>)
    requires LastUnshown(s, lines) && after.spoken == s.spoken
    ensures Shown(after, lines + [LineOfMessage(LastSpoken(s))])
  {
    SpokenSnoc(s.spoken[..|s.spoken| - 1], LastSpoken(s));
    assert s.spoken[..|s.spoken| - 1] + [LastSpoken(s)] == s.spoken;
  }

  // Refusals.

  lemma RefusedTask(cfg: Config, s: State, i: nat, act: TaskAct)
    requires RefusedInv(s) && PushedInv(s) && ToolsInv(cfg, s) && i < |s.tasks| && StepTask(cfg, s, i, act).Some?
    ensures RefusedInv(StepTask(cfg, s, i, act).value)
  {
    TaskFrame(cfg, s, i, act);
    TaskPushes(cfg, s, i, act);
    ActiveOnlyInTools(cfg, s, i);
    hide StepTask, ToolsInv, PushedInv;
    var after := StepTask(cfg, s, i, act).value;
    if act.ApprovalRefuses? {
      assert after.pushed[i].Terminal?;
    }
  }

  /** Reporting starts only when no approval was refused. */
  lemma RefusedTools(cfg: Config, s: State)
    requires RefusedInv(s) && PushedInv(s) && ToolsInv(cfg, s) && s.phase.Tools? && StepTools(cfg, s).Some?
    ensures RefusedInv(StepTools(cfg, s).value)
  {
    ToolsFrame(cfg, s);
    SchedulerFrame(cfg, s);
    hide StepTools, ToolsInv;
  }

  lemma RefusedQuiet(cfg: Config, s: State, a: Action, after: State)
    requires RefusedInv(s) && !s.phase.Tools? && !a.TaskStep? && Step(cfg, s, a) == Some(after)
    ensures RefusedInv(after)
  {
    hide C.FinalizeToolCalls, S.Repaired, S.Missing, StepTools, StepTask, C.Absorb, C.Finish;
    if s.refused == [] { assert after.refused == []; }
  }

  lemma RefusedStep(cfg: Config, s: State, a: Action, after: State)
    requires RefusedInv(s) && PushedInv(s) && ToolsInv(cfg, s) && Step(cfg, s, a) == Some(after)
    ensures RefusedInv(after)
  {
    hide PushedInv, ToolsInv, StepTop, StepYield, StepStreamFails, StepFollowUp, StepTask, StepTools;
    if a.TaskStep? {
      RefusedTask(cfg, s, a.task, a.act);
    } else if s.phase.Tools? && a.Advance? {
      RefusedTools(cfg, s);
    } else if !s.phase.Tools? {
      RefusedQuiet(cfg, s, a, after);
    }
  }

  /** A run that fails: it has shown all it recorded and its open calls are silent, or it was about to show the last. */
  lemma RowsFail(cfg: Config, r: Recorder, s: State, after: State)
    requires RowsInv(r, s) && PushedInv(s) && ToolsInv(cfg, s) && RefusedInv(s) && !s.phase.Ended?
    requires after.phase == Ended(Errored) && after.trace == s.trace && after.spoken == s.spoken
    requires after.refused == s.refused && after.turns == s.turns
    requires after.calls == s.calls && after.tasks == s.tasks && after.pushed == s.pushed
    ensures RowsInv(r, after)
  {
    hide View, RecordsOf, Accepted, Claims, PushedInv, ToolsInv, RefusedInv;
    hide SpokenLines, RefusalLines, OutputIs, LastUnshown, IsActive;
    if Accepted(RecordsOf(r, s.trace)) { FailedClaims(cfg, r, s, View(r, s.trace).0, View(r, s.trace).1); }
    FailureIsClaimed(r, s, after);
  }

  lemma FailureIsClaimed(r: Recorder, s: State, after: State)
    requires after.phase == Ended(Errored) && after.trace == s.trace && after.spoken == s.spoken
    requires after.refused == s.refused && after.turns == s.turns
    requires after.calls == s.calls && after.tasks == s.tasks && after.pushed == s.pushed
    requires Accepted(RecordsOf(r, s.trace)) ==>
               var (m, lines) := View(r, s.trace);
               Refusing(r, s, m, lines) || (s.refused == [] && Stopped(s, lines))
    ensures RowsInv(r, after)
  {
    hide View, RecordsOf, Accepted, SpokenLines, RefusalLines, OutputIs, IsActive;
  }

  lemma FailedClaims(cfg: Config, r: Recorder, s: State, m: InFlight, lines: seq<Line>)
    requires Claims(r, s, m, lines) && PushedInv(s) && ToolsInv(cfg, s) && RefusedInv(s) && !s.phase.Ended?
    ensures Refusing(r, s, m, lines) || (s.refused == [] && Stopped(s, lines))
  {
    hide SpokenLines, TextIs, OutputIs;
    assert s.refused == [] ==> SpokenLines(s.spoken) + RefusalLines(s.refused) == SpokenLines(s.spoken);
    if s.phase.Recorded? || (s.phase.Reporting? && !s.phase.stage.AppendResult?) { NothingRuns(cfg, s); }
  }

  lemma NothingRuns(cfg: Config, s: State)
    requires ToolsInv(cfg, s) && (s.phase.Recorded? || s.phase.Reporting?)
    ensures forall i | 0 <= i < |s.tasks| :: !IsActive(s.tasks[i])
  {
  }

  // Steps that push nothing.

  lemma RowsTop(cfg: Config, r: Recorder, s: State, cancelled: bool, fetched: seq<S.Message>)
    requires RowsInv(r, s) && PushedInv(s) && ToolsInv(cfg, s) && RefusedInv(s) && s.phase.Top?
    ensures RowsInv(r, StepTop(s, cancelled, fetched))
  {
    hide View, RecordsOf, Accepted, SpokenLines, PushedInv, ToolsInv, RefusedInv;
    var after := StepTop(s, cancelled, fetched);
    if after.phase == Ended(Errored) { RowsFail(cfg, r, s, after); }
  }

  lemma RowsFollowUp(r: Recorder, s: State, fetched: seq<S.Message>)
    requires RowsInv(r, s) && s.phase.Settled? && StepFollowUp(s, fetched).Some?
    ensures RowsInv(r, StepFollowUp(s, fetched).value)
  {
    hide View, RecordsOf, Accepted, SpokenLines;
  }

  lemma RowsStream(cfg: Config, r: Recorder, s: State, a: Action)
    requires RowsInv(r, s) && PushedInv(s) && ToolsInv(cfg, s) && RefusedInv(s) && Step(cfg, s, a).Some?
    requires a.StreamOpens? || a.StreamCloses? || a.StreamFails? || a.Abort?
    ensures RowsInv(r, Step(cfg, s, a).value)
  {
    hide View, RecordsOf, Accepted, SpokenLines, TextIs, OutputIs, PushedInv, ToolsInv, RefusedInv;
    var after := Step(cfg, s, a).value;
    if after.phase == Ended(Errored) { RowsFail(cfg, r, s, after); }
  }

  lemma RowsGathered(cfg: Config, r: Recorder, s: State)
    requires RowsInv(r, s) && PushedInv(s) && ToolsInv(cfg, s) && RefusedInv(s) && s.phase.Gathered?
    ensures RowsInv(r, StepGathered(cfg, s))
  {
    hide View, RecordsOf, Accepted, SpokenLines, TextIs, LastUnshown, Shown, C.FinalizeToolCalls;
    hide PushedInv, ToolsInv, RefusedInv;
    var after := StepGathered(cfg, s);
    if after.phase == Ended(Errored) {
      RowsFail(cfg, r, s, after);
    } else if Accepted(RecordsOf(r, s.trace)) {
      SpeakOne(s, after, View(r, s.trace).1, S.AssistantMessage(s.phase.turn.text, ToolRecords(cfg, after.calls)));
    }
  }

  lemma RowsSettled(cfg: Config, r: Recorder, s: State)
    requires RowsInv(r, s) && PushedInv(s) && ToolsInv(cfg, s) && RefusedInv(s)
    requires s.phase.Settled? && StepSettled(s).Some?
    ensures RowsInv(r, StepSettled(s).value)
  {
    hide View, RecordsOf, Accepted, SpokenLines, PushedInv, ToolsInv, RefusedInv;
    var after := StepSettled(s).value;
    if after.phase == Ended(Errored) { RowsFail(cfg, r, s, after); }
  }

  lemma RowsRepair(r: Recorder, s: State)
    requires RowsInv(r, s) && s.phase.Repair?
    ensures RowsInv(r, StepRepair(s))
  {
    hide View, RecordsOf, Accepted, SpokenLines, TextIs, S.Repaired, S.Missing;
  }

  lemma RowsTools(cfg: Config, r: Recorder, s: State)
    requires RowsInv(r, s) && PushedInv(s) && ToolsInv(cfg, s) && RefusedInv(s)
    requires s.phase.Tools? && StepTools(cfg, s).Some?
    ensures RowsInv(r, StepTools(cfg, s).value)
  {
    ToolsFrame(cfg, s);
    SchedulerFrame(cfg, s);
    var after := StepTools(cfg, s).value;
    hide View, RecordsOf, Accepted, SpokenLines, OutputIs, StepTools, ToolsInv;
    if after.phase.Reporting? {
      AllOpen(s);
      if Accepted(RecordsOf(r, s.trace)) {
        assert SpokenLines(s.spoken) + RefusalLines([]) == SpokenLines(s.spoken);
      }
    } else {
      hide PushedInv, RefusedInv;
      if after.phase == Ended(Errored) { FailsInTools(cfg, r, s, after); }
    }
  }

  lemma AllOpen(s: State)
    requires PushedInv(s) && RefusedInv(s) && s.phase.Tools? && Finished(s, |s.calls|)
    ensures s.refused == [] && |s.pushed| == |s.calls| && forall i | 0 <= i < |s.pushed| :: s.pushed[i].Started?
  {
  }

  /** The scheduler fails without touching a call. */
  lemma FailsInTools(cfg: Config, r: Recorder, s: State, after: State)
    requires RowsInv(r, s) && s.phase.Tools? && after.phase == Ended(Errored)
    requires after == s.(phase := after.phase, tasks := after.tasks, results := after.results)
    ensures RowsInv(r, after)
  {
    hide View, RecordsOf, Accepted, SpokenLines, OutputIs;
  }

  // Steps that push a frame.

  lemma RowsAnnounce(r: Recorder, s: State, after: State, e: Emission)
    requires RowsInv(r, s) && s.phase.Announce? && e == LoopFrame(s.turns, None, None, AssistantTurnStarted)
    requires after == Push(s.(phase := Repair, turnOpen := true), e)
    ensures RowsInv(r, after)
  {
    hide View, RecordsOf, SpokenLines, TextIs, OutputIs, Accepted;
    if Accepted(RecordsOf(r, after.trace)) { PushedTurnFrame(r, s.trace, e, s.turns); }
  }

  lemma RowsDelta(r: Recorder, s: State, after: State, g: C.Gathering, e: Emission, delta: string)
    requires RowsInv(r, s) && s.phase.Streaming? && g.text == s.phase.gathering.text + delta
    requires e.frame == AssistantMessageDelta(delta) && e.turnId == Some(TurnId(s.turns))
    requires after == Push(s.(phase := Streaming(g)), e)
    ensures RowsInv(r, after)
  {
    hide View, RecordsOf, SpokenLines, TextIs, OutputIs, Accepted;
    if Accepted(RecordsOf(r, after.trace)) { PushedTurnFrame(r, s.trace, e, s.turns); }
  }

  lemma RowsYield(r: Recorder, s: State, e: C.StreamEvent)
    requires RowsInv(r, s) && s.phase.Streaming?
    ensures RowsInv(r, StepYield(s, e))
  {
    hide View, RecordsOf, SpokenLines, TextIs, Accepted, OutputIs;
    var g := s.phase.gathering;
    if e.TextDelta? {
      hide RowsInv;
      RowsDelta(r, s, StepYield(s, e), C.Absorb(g, e), C.DeltaFrame(TurnId(s.turns), g.fragment, e.delta), e.delta);
    } else {
      assert C.Absorb(g, e).text == g.text;
    }
  }

  lemma RowsRecorded(r: Recorder, s: State, after: State, e: Emission)
    requires RowsInv(r, s) && s.phase.Recorded? && e == LoopFrame(s.turns, None, None, AssistantTurnCompleted)
    requires after == Push(s.(phase := Settled(s.phase.stop), turnOpen := false), e)
    ensures RowsInv(r, after)
  {
    hide View, RecordsOf, SpokenLines, TextIs, OutputIs, Accepted, Silent;
    if Accepted(RecordsOf(r, after.trace)) {
      PushedTurnFrame(r, s.trace, e, s.turns);
      ShowLast(s, after, View(r, s.trace).1);
    }
  }

  /** Starting a call: what was silent stays silent, and so is the new call. */
  lemma StartSilences(r: Recorder, s: State, after: State, i: nat, e: Emission)
    requires Accepted(RecordsOf(r, s.trace + [e])) && Accepted(RecordsOf(r, s.trace))
    requires i < |s.calls| && after.calls == s.calls && after.turns == s.turns
    requires e.frame.ToolCallStarted? && e.turnId == Some(TurnId(s.turns)) && e.itemId == Some(s.calls[i].id)
    requires Silent(r, s, View(r, s.trace).0, 0, i)
    requires forall k | 0 <= k < i :: s.calls[k].id != s.calls[i].id
    ensures Silent(r, after, View(r, s.trace + [e]).0, 0, i + 1)
    ensures View(r, s.trace + [e]).1 == View(r, s.trace).1
  {
    hide View, RecordsOf, Accepted, OutputIs;
    var id := s.calls[i].id;
    PushedToolFrame(r, s.trace, e, s.turns, id, id);
    forall k | 0 <= k < i + 1 ensures OutputIs(r, View(r, s.trace + [e]).0, s.turns, s.calls[k].id, "") {
      if k < i { PushedToolFrame(r, s.trace, e, s.turns, id, s.calls[k].id); }
    }
  }

  lemma EarlierIdsDiffer(s: State, after: State, i: nat)
    requires PushedInv(s) && s.phase == Starting(i) && i < |s.calls|
    requires after.calls == s.calls && after.pushed == s.pushed[i := Started] && IdsDistinct(after)
    ensures forall k | 0 <= k < i :: s.calls[k].id != s.calls[i].id
  {
    assert forall k | 0 <= k < i :: after.pushed[k].Started?;
  }

  lemma RowsStarting(cfg: Config, r: Recorder, s: State)
    requires RowsInv(r, s) && s.phase.Starting? && StepStarting(cfg, s).Some?
    requires PushedInv(s) && ToolsInv(cfg, s) && RefusedInv(s)
    requires var after := StepStarting(cfg, s).value; Accepted(RecordsOf(r, after.trace)) ==> IdsDistinct(after)
    ensures RowsInv(r, StepStarting(cfg, s).value)
  {
    var after, i := StepStarting(cfg, s).value, s.phase.next;
    hide View, RecordsOf, SpokenLines, OutputIs, Accepted, IsBlank, Silent, PushedInv, IdsDistinct, Fits;
    hide ToolsInv, RefusedInv;
    if i < |s.calls| && |s.pushed| == |s.calls| && !IsBlank(s.calls[i].id) {
      var e := LoopFrame(s.turns, Some(s.calls[i].id), None, ToolCallStarted(s.calls[i].name, cfg.render(s.calls[i].input)));
      assert after == Push(s.(phase := Starting(i + 1), pushed := s.pushed[i := Started]), e);
      RowsStart(r, s, after, i, e);
    } else if after.phase == Ended(Errored) {
      RowsFail(cfg, r, s, after);
    } else {
      RowsStarted(r, s, after);
    }
  }

  lemma RowsStarted(r: Recorder, s: State, after: State)
    requires RowsInv(r, s) && s.phase.Starting? && after == s.(phase := after.phase) && RefusedInv(s)
    requires PushedInv(s) && after.phase.Tools? && s.phase.next >= |s.calls|
    ensures RowsInv(r, after)
  {
    hide View, RecordsOf, SpokenLines, OutputIs, Accepted;
    assert SpokenLines(s.spoken) + RefusalLines([]) == SpokenLines(s.spoken);
  }

  lemma RowsStart(r: Recorder, s: State, after: State, i: nat, e: Emission)
    requires RowsInv(r, s) && s.phase == Starting(i) && i < |s.calls| == |s.pushed| && PushedInv(s)
    requires after == Push(s.(phase := Starting(i + 1), pushed := s.pushed[i := Started]), e)
    requires e.frame.ToolCallStarted? && e.turnId == Some(TurnId(s.turns)) && e.itemId == Some(s.calls[i].id)
    requires Accepted(RecordsOf(r, after.trace)) ==> IdsDistinct(after)
    ensures RowsInv(r, after)
  {
    hide View, RecordsOf, SpokenLines, OutputIs, Accepted, Silent, PushedInv, IdsDistinct, Apply, Allows, RowNow, Project;
    if Accepted(RecordsOf(r, after.trace)) {
      PushedFrame(r, s.trace, e);
      EarlierIdsDiffer(s, after, i);
      StartSilences(r, s, after, i, e);
    }
  }

  /** A wait for approval leaves silent calls silent. */
  lemma PendingSilences(r: Recorder, s: State, after: State, e: Emission)
    requires Accepted(RecordsOf(r, s.trace + [e])) && Accepted(RecordsOf(r, s.trace))
    requires after.calls == s.calls && after.turns == s.turns && after.pushed == s.pushed
    requires e.frame.PendingStateChanged? && SilentOpen(r, s, View(r, s.trace).0)
    ensures SilentOpen(r, after, View(r, s.trace + [e]).0)
  {
    hide View, RecordsOf, Accepted, OutputIs;
    forall k | 0 <= k < |s.calls| && k < |s.pushed| && s.pushed[k].Started?
      ensures OutputIs(r, View(r, s.trace + [e]).0, s.turns, s.calls[k].id, "")
    {
      PushedPending(r, s.trace, e, s.turns, s.calls[k].id);
    }
  }

  /** A step of a task in the tool phase, or of one that a failed run left behind. */
  lemma RowsTask(cfg: Config, r: Recorder, s: State, i: nat, act: TaskAct)
    requires RowsInv(r, s) && PushedInv(s) && ToolsInv(cfg, s) && i < |s.tasks| && StepTask(cfg, s, i, act).Some?
    requires Accepted(RecordsOf(r, s.trace)) ==> IdsDistinct(s)
    requires Accepted(RecordsOf(r, StepTask(cfg, s, i, act).value.trace)) ==> Accepted(RecordsOf(r, s.trace))
    ensures RowsInv(r, StepTask(cfg, s, i, act).value)
  {
    TaskFrame(cfg, s, i, act);
    TaskPushes(cfg, s, i, act);
    ActiveOnlyInTools(cfg, s, i);
    var after := StepTask(cfg, s, i, act).value;
    hide StepTask, ToolsInv, PushedInv, IdsDistinct, Accepted, RecordsOf, View, RowsInv;
    if Accepted(RecordsOf(r, s.trace)) { RefusingNow(r, s, i); }
    if act.ApprovalRefuses? {
      RowsRefuse(r, s, after, i, LoopFrame(s.turns, Some(s.calls[i].id), None, ToolCallCompleted(ToolOutcome.Cancelled)));
    } else if act.AsksApproval? {
      RowsWait(r, s, after, Emission(None, Some(s.calls[i].id), None, PendingStateChanged(WaitingForApproval)));
    } else {
      RowsRun(r, s, after);
    }
  }

  lemma RefusingNow(r: Recorder, s: State, i: nat)
    requires RowsInv(r, s) && Accepted(RecordsOf(r, s.trace)) && i < |s.tasks| && IsActive(s.tasks[i])
    requires s.phase.Tools? || s.phase == Ended(Errored)
    ensures Refusing(r, s, View(r, s.trace).0, View(r, s.trace).1)
  {
    hide View, RecordsOf, SpokenLines, OutputIs, Accepted, SilentOpen, LastUnshown;
  }

  lemma RefusingIsClaimed(r: Recorder, s: State)
    requires s.phase.Tools? || s.phase == Ended(Errored)
    requires Accepted(RecordsOf(r, s.trace)) ==> Refusing(r, s, View(r, s.trace).0, View(r, s.trace).1)
    ensures RowsInv(r, s)
  {
    hide View, RecordsOf, SpokenLines, OutputIs, Accepted, SilentOpen, LastUnshown;
  }

  lemma RowsRun(r: Recorder, s: State, after: State)
    requires s.phase.Tools? || s.phase == Ended(Errored)
    requires Accepted(RecordsOf(r, s.trace)) ==> Refusing(r, s, View(r, s.trace).0, View(r, s.trace).1)
    requires after == s.(tasks := after.tasks)
    ensures RowsInv(r, after)
  {
    RefusingIsClaimed(r, after) by {
      hide View, RecordsOf, SpokenLines, OutputIs, Accepted;
    }
  }

  lemma RowsWait(r: Recorder, s: State, after: State, e: Emission)
    requires s.phase.Tools? || s.phase == Ended(Errored)
    requires Accepted(RecordsOf(r, s.trace)) ==> Refusing(r, s, View(r, s.trace).0, View(r, s.trace).1)
    requires e.frame.PendingStateChanged? && after == s.(tasks := after.tasks, trace := s.trace + [e])
    requires Accepted(RecordsOf(r, after.trace)) ==> Accepted(RecordsOf(r, s.trace))
    ensures RowsInv(r, after)
  {
    hide View, RecordsOf, SpokenLines, OutputIs, Accepted, SilentOpen, Claims, RowsInv;
    if Accepted(RecordsOf(r, after.trace)) {
      PushedPending(r, s.trace, e, s.turns, "");
      PendingSilences(r, s, after, e);
    }
    RefusingIsClaimed(r, after);
  }

  lemma RefusalSnoc(refused: seq<string>, id: string)
    ensures RefusalLines(refused + [id]) == RefusalLines(refused) + [Answered(Some(id), "")]
  {
  }

  /** Closing call `i` leaves the other open calls, which have other ids, silent. */
  lemma RefusalSilences(r: Recorder, s: State, after: State, i: nat, e: Emission)
    requires Accepted(RecordsOf(r, s.trace + [e])) && Accepted(RecordsOf(r, s.trace))
    requires i < |s.calls| == |s.pushed| && s.pushed[i].Started? && IdsDistinct(s)
    requires after.calls == s.calls && after.turns == s.turns && after.pushed == s.pushed[i := Terminal]
    requires e.frame.ToolCallCompleted? && e.turnId == Some(TurnId(s.turns)) && e.itemId == Some(s.calls[i].id)
    requires SilentOpen(r, s, View(r, s.trace).0)
    ensures SilentOpen(r, after, View(r, s.trace + [e]).0)
  {
    hide View, RecordsOf, Accepted, OutputIs;
    forall k | 0 <= k < |s.calls| && after.pushed[k].Started?
      ensures OutputIs(r, View(r, s.trace + [e]).0, s.turns, s.calls[k].id, "")
    {
      assert k != i && s.pushed[k].Started? && s.calls[k].id != s.calls[i].id;
      OthersStaySilent(r, s.trace, e, s.turns, s.calls[i].id, s.calls[k].id);
    }
  }

  lemma OthersStaySilent(r: Recorder, trace: seq<Emission>, e: Emission, turn: nat, id: string, other: string)
    requires Accepted(RecordsOf(r, trace + [e])) && Accepted(RecordsOf(r, trace))
    requires e.turnId == Some(TurnId(turn)) && e.itemId == Some(id) && e.frame.ToolCallCompleted? && other != id
    requires OutputIs(r, View(r, trace).0, turn, other, "")
    ensures OutputIs(r, View(r, trace + [e]).0, turn, other, "")
  {
    PushedToolFrame(r, trace, e, turn, id, other);
    hide View, RecordsOf, Accepted, OutputIs;
  }

  lemma RowsRefuse(r: Recorder, s: State, after: State, i: nat, e: Emission)
    requires s.phase.Tools? || s.phase == Ended(Errored)
    requires Accepted(RecordsOf(r, s.trace)) ==>
               Refusing(r, s, View(r, s.trace).0, View(r, s.trace).1) && IdsDistinct(s)
    requires i < |s.calls| == |s.pushed| && s.pushed[i].Started?
    requires e == LoopFrame(s.turns, Some(s.calls[i].id), None, ToolCallCompleted(ToolOutcome.Cancelled))
    requires after == s.(tasks := after.tasks, pushed := s.pushed[i := Terminal], trace := s.trace + [e],
                         refused := s.refused + [s.calls[i].id])
    requires Accepted(RecordsOf(r, after.trace)) ==> Accepted(RecordsOf(r, s.trace))
    ensures RowsInv(r, after)
  {
    var id := s.calls[i].id;
    if Accepted(RecordsOf(r, after.trace)) {
      assert OutputIs(r, View(r, s.trace).0, s.turns, id, "") by { hide View, OutputIs, IdsDistinct; }
      hide View, RecordsOf, SpokenLines, RefusalLines, OutputIs, Accepted, SilentOpen, IdsDistinct;
      PushedToolFrame(r, s.trace, e, s.turns, id, id);
      RefusalSilences(r, s, after, i, e);
      RefusalSnoc(s.refused, id);
      var spoken, refused, line := SpokenLines(s.spoken), RefusalLines(s.refused), Answered(Some(id), "");
      assert spoken + refused + [line] == spoken + (refused + [line]);
    }
    RefusingIsClaimed(r, after);
  }

  lemma RowsAppendResult(r: Recorder, s: State)
    requires RowsInv(r, s) && s.phase.Reporting? && StepReporting(s).Some?
    requires s.phase.stage.AppendResult? || s.phase.at >= |s.results|
    ensures RowsInv(r, StepReporting(s).value)
  {
    hide View, RecordsOf, Accepted, SpokenLines, OutputIs;
    var i := s.phase.at;
    if i < |s.results| && Accepted(RecordsOf(r, s.trace)) {
      SpeakOne(s, StepReporting(s).value, View(r, s.trace).1, S.ToolMessage(s.results[i].callId, s.results[i].content));
    }
  }

  /** A frame of call `i`: later calls, which have other ids, stay silent. */
  lemma ResultSilences(r: Recorder, s: State, after: State, i: nat, e: Emission)
    requires Accepted(RecordsOf(r, s.trace + [e])) && Accepted(RecordsOf(r, s.trace))
    requires i < |s.calls| && after.calls == s.calls && after.turns == s.turns && IdsDistinctInTurn(s)
    requires e.frame.ToolCallProgressed? || e.frame.ToolCallCompleted?
    requires e.turnId == Some(TurnId(s.turns)) && e.itemId == Some(s.calls[i].id)
    requires Silent(r, s, View(r, s.trace).0, i + 1, |s.calls|)
    ensures Silent(r, after, View(r, s.trace + [e]).0, i + 1, |after.calls|)
  {
    hide View, RecordsOf, Accepted, OutputIs;
    forall k | i < k < |s.calls| ensures OutputIs(r, View(r, s.trace + [e]).0, s.turns, s.calls[k].id, "") {
      assert OutputIs(r, View(r, s.trace).0, s.turns, s.calls[k].id, "") && s.calls[k].id != s.calls[i].id;
      PushedToolFrame(r, s.trace, e, s.turns, s.calls[i].id, s.calls[k].id);
    }
  }

  lemma RowsProgress(r: Recorder, s: State, after: State, i: nat, e: Emission)
    requires RowsInv(r, s) && s.phase == Reporting(i, PushProgress) && IdsDistinctInTurn(s)
    requires i < |s.results| == |s.calls| && s.results[i].callId == s.calls[i].id
    requires e == LoopFrame(s.turns, Some(s.results[i].callId), Some(0), ToolCallProgressed(s.results[i].content))
    requires after == Push(s.(phase := Reporting(i, PushCompletion)), e)
    ensures RowsInv(r, after)
  {
    hide View, RecordsOf, Accepted, SpokenLines, OutputIs;
    var result := s.results[i];
    if Accepted(RecordsOf(r, after.trace)) {
      PushedToolFrame(r, s.trace, e, s.turns, result.callId, result.callId);
      SilentRest(r, s, View(r, s.trace).0, i);
      hide Silent;
      ResultSilences(r, s, after, i, e);
      assert "" + result.content == result.content;
    }
  }

  lemma SilentRest(r: Recorder, s: State, m: InFlight, i: nat)
    requires Silent(r, s, m, i, |s.calls|) && i < |s.calls|
    ensures Silent(r, s, m, i + 1, |s.calls|) && OutputIs(r, m, s.turns, s.calls[i].id, "")
  {
  }

  lemma RowsCompletion(r: Recorder, s: State, after: State, i: nat, e: Emission)
    requires RowsInv(r, s) && s.phase == Reporting(i, PushCompletion) && IdsDistinctInTurn(s)
    requires i < |s.results| == |s.calls| == |s.pushed| && s.results[i].callId == s.calls[i].id
    requires e == LoopFrame(s.turns, Some(s.results[i].callId), None, ToolCallCompleted(s.results[i].outcome))
    requires after == Push(s.(phase := Reporting(i + 1, AppendResult), pushed := s.pushed[i := Terminal]), e)
    ensures RowsInv(r, after)
  {
    hide View, RecordsOf, Accepted, SpokenLines, OutputIs, Silent;
    var result := s.results[i];
    if Accepted(RecordsOf(r, after.trace)) {
      PushedToolFrame(r, s.trace, e, s.turns, result.callId, result.callId);
      assert OutputIs(r, View(r, s.trace).0, s.turns, result.callId, result.content);
      ResultSilences(r, s, after, i, e);
      ShowLast(s, after, View(r, s.trace).1);
      assert LineOfMessage(LastSpoken(s)) == Answered(Some(result.callId), result.content);
    }
  }

  predicate IdsDistinctInTurn(s: State) {
    forall i, j | 0 <= i < j < |s.calls| :: s.calls[i].id != s.calls[j].id
  }

  /** All calls of a turn were started under different ids once its results are reported. */
  lemma ReportedIdsDistinct(s: State)
    requires PushedInv(s) && s.phase.Reporting? && IdsDistinct(s)
    ensures IdsDistinctInTurn(s)
  {
    assert forall i | 0 <= i < |s.pushed| :: !s.pushed[i].Unstarted?;
  }

  lemma RowsReporting(cfg: Config, r: Recorder, s: State)
    requires RowsInv(r, s) && PushedInv(s) && ToolsInv(cfg, s) && s.phase.Reporting? && StepReporting(s).Some?
    requires Accepted(RecordsOf(r, s.trace)) ==> IdsDistinct(s)
    requires Accepted(RecordsOf(r, StepReporting(s).value.trace)) ==> Accepted(RecordsOf(r, s.trace))
    ensures RowsInv(r, StepReporting(s).value)
  {
    var after, i := StepReporting(s).value, s.phase.at;
    if s.phase.stage.AppendResult? || i >= |s.results| {
      RowsAppendResult(r, s);
    } else if Accepted(RecordsOf(r, s.trace)) {
      ReportedIdsDistinct(s);
      var result := s.results[i];
      assert result.callId == s.calls[i].id;
      if s.phase.stage.PushProgress? {
        RowsProgress(r, s, after, i, LoopFrame(s.turns, Some(result.callId), Some(0), ToolCallProgressed(result.content)));
      } else {
        RowsCompletion(r, s, after, i, LoopFrame(s.turns, Some(result.callId), None, ToolCallCompleted(result.outcome)));
      }
    }
  }

  lemma RowsAdvance(cfg: Config, r: Recorder, s: State, after: State)
    requires RowsInv(r, s) && PushedInv(s) && ToolsInv(cfg, s) && RefusedInv(s) && StepAdvance(cfg, s) == Some(after)
    requires Accepted(RecordsOf(r, s.trace)) ==> IdsDistinct(s)
    requires Accepted(RecordsOf(r, after.trace)) ==> IdsDistinct(after) && Accepted(RecordsOf(r, s.trace))
    ensures RowsInv(r, after)
  {
    hide RowsInv, PushedInv, ToolsInv, RefusedInv, StepGathered, StepSettled, StepRepair, StepStarting, StepTools,
         StepReporting, Accepted, RecordsOf, IdsDistinct;
    match s.phase {
      case Announce => RowsAnnounce(r, s, after, LoopFrame(s.turns, None, None, AssistantTurnStarted));
      case Repair => RowsRepair(r, s);
      case Gathered(_) => RowsGathered(cfg, r, s);
      case Recorded(_) => RowsRecorded(r, s, after, LoopFrame(s.turns, None, None, AssistantTurnCompleted));
      case Settled(_) => RowsSettled(cfg, r, s);
      case Starting(_) => RowsStarting(cfg, r, s);
      case Tools(_) => RowsTools(cfg, r, s);
      case Reporting(_, _) => RowsReporting(cfg, r, s);
      case _ =>
    }
  }

  lemma RowsStep(cfg: Config, r: Recorder, s: State, a: Action, after: State)
    requires RowsInv(r, s) && PushedInv(s) && ToolsInv(cfg, s) && RefusedInv(s) && Step(cfg, s, a) == Some(after)
    requires Accepted(RecordsOf(r, s.trace)) ==> IdsDistinct(s)
    requires Accepted(RecordsOf(r, after.trace)) ==> IdsDistinct(after) && Accepted(RecordsOf(r, s.trace))
    ensures RowsInv(r, after)
  {
    hide RowsInv, PushedInv, ToolsInv, RefusedInv, StepTop, StepAdvance, StepYield, StepStreamFails, StepFollowUp, StepTask,
         Accepted, RecordsOf, IdsDistinct;
    match a {
      case Loop(cancelled, fetched) => RowsTop(cfg, r, s, cancelled, fetched);
      case Advance => RowsAdvance(cfg, r, s, after);
      case Yield(e) => RowsYield(r, s, e);
      case FollowUp(fetched) => RowsFollowUp(r, s, fetched);
      case TaskStep(i, act) => RowsTask(cfg, r, s, i, act);
      case _ => RowsStream(cfg, r, s, a);
    }
  }

  /** Frames are only ever added, so what is accepted now was accepted before. */
  lemma AcceptedBefore(cfg: Config, r: Recorder, s: State, a: Action, after: State)
    requires Step(cfg, s, a) == Some(after) && Accepted(RecordsOf(r, after.trace))
    ensures Accepted(RecordsOf(r, s.trace))
  {
    TraceGrows(cfg, s, a, after);
    if after.trace != s.trace { PushedFrame(r, s.trace, after.trace[|s.trace|]); }
  }

  lemma TraceGrows(cfg: Config, s: State, a: Action, after: State)
    requires Step(cfg, s, a) == Some(after)
    ensures after.trace == s.trace || (|after.trace| == |s.trace| + 1 && after.trace == s.trace + [after.trace[|s.trace|]])
  {
    hide StepTools, StepTask, StepAdvance, StepTop, StepFollowUp, StepStreamFails;
    match a {
      case Advance => AdvanceGrows(cfg, s, after);
      case TaskStep(i, act) => TaskPushes(cfg, s, i, act);
      case Loop(cancelled, fetched) => QuietTrace(s, cancelled, fetched);
      case FollowUp(fetched) => QuietTrace(s, false, fetched);
      case StreamFails(contextLimit) => QuietTrace(s, contextLimit, []);
      case _ =>
    }
  }

  lemma QuietTrace(s: State, flag: bool, fetched: seq<S.Message>)
    ensures StepTop(s, flag, fetched).trace == s.trace && StepStreamFails(s, flag).trace == s.trace
    ensures s.phase.Settled? && StepFollowUp(s, fetched).Some? ==> StepFollowUp(s, fetched).value.trace == s.trace
  {
  }

  lemma AdvanceGrows(cfg: Config, s: State, after: State)
    requires StepAdvance(cfg, s) == Some(after)
    ensures after.trace == s.trace || (|after.trace| == |s.trace| + 1 && after.trace == s.trace + [after.trace[|s.trace|]])
  {
    hide StepTools, C.FinalizeToolCalls, S.Repaired, S.Missing;
    if s.phase.Tools? { ToolsFrame(cfg, s); }
  }

  lemma {:induction false} RunKeepsRows(cfg: Config, r: Recorder, initial: State, actions: seq<Action>)
    requires Initial(initial) && Run(cfg, initial, actions).Some?
    ensures RowsInv(r, Run(cfg, initial, actions).value) && RefusedInv(Run(cfg, initial, actions).value)
  {
    RunKeepsFrames(cfg, r, initial, actions);
    if actions == [] {
      assert initial.trace == [] && SpokenLines([]) == RowLines([]);
    } else {
      var front, a := actions[..|actions| - 1], actions[|actions| - 1];
      RunKeepsRows(cfg, r, initial, front);
      RunKeepsFrames(cfg, r, initial, front);
      RunKeepsTools(cfg, initial, front);
      var s, after := Run(cfg, initial, front).value, Run(cfg, initial, actions).value;
      hide RowsInv, PushedInv, ToolsInv, RefusedInv, StartsInv, Step, IdsDistinct, Match, RecordsOf;
      if Accepted(RecordsOf(r, after.trace)) { AcceptedBefore(cfg, r, s, a, after); }
      RowsStep(cfg, r, s, a, after);
      RefusedStep(cfg, s, a, after);
    }
  }

  lemma ClaimsShow(r: Recorder, s: State, m: InFlight, lines: seq<Line>)
    requires Claims(r, s, m, lines) && RefusedInv(s)
    ensures lines == SpokenLines(s.spoken) + RefusalLines(s.refused) || (s.refused == [] && LastUnshown(s, lines))
    ensures (s.phase.Ended? && s.phase.end.Succeeded?) || s.phase.Top? ==> s.refused == [] && Shown(s, lines)
    ensures s.phase.Tools? ==> lines == SpokenLines(s.spoken) + RefusalLines(s.refused)
  {
    assert SpokenLines(s.spoken) + RefusalLines([]) == SpokenLines(s.spoken);
    hide TextIs, OutputIs, Silent, SilentOpen, SpokenLines;
  }

  /**
   The rows are the conversation: in any run whose frames are accepted, at any point of it, failed runs and
   their detached tasks included, the completed rows show exactly the assistant turns and tool results that were
   recorded for the model, in that order, each with its full text, followed by an empty answer for each approval
   refused, in the order of the refusals; or, with none refused, all but the message just recorded. Only in the
   tool phase and after a failure has any been refused, and a completed run has shown everything.
   */
  lemma RowsShowTheConversation(cfg: Config, r: Recorder, initial: State, s: State)
    requires Reachable(cfg, initial, s) && DistinctStarts(s.trace)
    ensures Accepted(RecordsOf(r, s.trace))
    ensures var lines := RowLines(Project(Empty, RecordsOf(r, s.trace)).value.1);
            && (|| lines == SpokenLines(s.spoken) + RefusalLines(s.refused)
                || (s.refused == [] && s.spoken != [] && lines == SpokenLines(s.spoken[..|s.spoken| - 1])))
            && (s.phase.Tools? ==> lines == SpokenLines(s.spoken) + RefusalLines(s.refused))
            && (s.phase == Top || (s.phase.Ended? && s.phase.end.Succeeded?) ==> lines == SpokenLines(s.spoken))
    ensures s.refused != [] ==> s.phase.Tools? || s.phase == Ended(Errored)
  {
    var actions :| Run(cfg, initial, actions) == Some(s);
    RunKeepsRows(cfg, r, initial, actions);
    FramesConform(cfg, r, initial, s);
    hide Reachable, Run, RecordsOf, DistinctStarts, SpokenLines, RefusalLines, Claims, Project;
    ClaimsShow(r, s, View(r, s.trace).0, View(r, s.trace).1);
  }
}
