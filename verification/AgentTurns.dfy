/**
 The in-flight projection of agent stream events (crates/ta-store/src/agent_turns.rs):
 two maps of open assistant turns and open tool calls, and the rows that closing one yields.
 */
module AgentTurns {
  import opened Prelude
  import opened Wire

  datatype TurnKey = TurnKey(sessionId: string, runId: string, turnId: Option<string>)

  datatype ToolKey = ToolKey(sessionId: string, runId: string, turnId: Option<string>, itemId: Option<string>)

  datatype OpenTurn = OpenTurn(
    sessionId: string, runId: string, turnId: Option<string>, startedAtMs: nat, text: string)

  datatype OpenTool = OpenTool(
    sessionId: string, runId: string, turnId: Option<string>, itemId: Option<string>,
    toolName: string, input: string, startedAtMs: nat, output: string)

  datatype InFlight = InFlight(turns: map<TurnKey, OpenTurn>, tools: map<ToolKey, OpenTool>)

  datatype Row =
    | AssistantRow(sequence: nat, sessionId: string, runId: string, turnId: Option<string>,
                   startedAtMs: nat, completedAtMs: nat, text: string)
    | ToolRow(sequence: nat, sessionId: string, runId: string, turnId: Option<string>, itemId: Option<string>,
              toolName: string, input: string, output: string, outcome: ToolOutcome,
              startedAtMs: nat, completedAtMs: nat)
    | PendingRow(sequence: nat, sessionId: string, runId: string, turnId: Option<string>,
                 occurredAtMs: nat, state: PendingState)

  datatype ViolationKind =
    | TurnAlreadyStarted
    | DeltaWithoutTurn
    | CompletionWithoutTurn
    | ToolAlreadyStarted
    | ProgressWithoutTool
    | CompletionWithoutTool

  datatype Violation = Violation(kind: ViolationKind, key: ToolKey)

  const Empty: InFlight := InFlight(map[], map[])

  function KeyOfTurn(sessionId: string, runId: string, e: Emission): TurnKey {
    TurnKey(sessionId, runId, e.turnId)
  }

  function KeyOfTool(sessionId: string, runId: string, e: Emission): ToolKey {
    ToolKey(sessionId, runId, e.turnId, e.itemId)
  }

  function TurnViolation(kind: ViolationKind, k: TurnKey): Violation {
    Violation(kind, ToolKey(k.sessionId, k.runId, k.turnId, None))
  }

  /** What one record does to the maps: the new maps and the row it completes, or the violation. */
  function Apply(m: InFlight, rec: EventRecord): Result<(InFlight, Option<Row>), Violation> {
    if !rec.payload.AgentStream? then Ok((m, None))
    else
      var e := rec.payload.emission;
      var turn := KeyOfTurn(rec.sessionId, rec.payload.runId, e);
      var tool := KeyOfTool(rec.sessionId, rec.payload.runId, e);
      match e.frame
      case AssistantTurnStarted =>
        if turn in m.turns then Err(TurnViolation(TurnAlreadyStarted, turn))
        else
          var started := OpenTurn(turn.sessionId, turn.runId, turn.turnId, rec.occurredAtMs, "");
          Ok((m.(turns := m.turns[turn := started]), None))
      case AssistantMessageDelta(delta) =>
        if delta == "" then Ok((m, None))
        else if turn !in m.turns then Err(TurnViolation(DeltaWithoutTurn, turn))
        else
          var grown := m.turns[turn].(text := m.turns[turn].text + delta);
          Ok((m.(turns := m.turns[turn := grown]), None))
      case AssistantTurnCompleted =>
        if turn !in m.turns then Err(TurnViolation(CompletionWithoutTurn, turn))
        else
          var t := m.turns[turn];
          Ok((m.(turns := m.turns - {turn}),
              Some(AssistantRow(rec.sequence, t.sessionId, t.runId, t.turnId, t.startedAtMs, rec.occurredAtMs, t.text))))
      case ToolCallStarted(toolName, input) =>
        if tool in m.tools then Err(Violation(ToolAlreadyStarted, tool))
        else
          var started :=
            OpenTool(tool.sessionId, tool.runId, tool.turnId, tool.itemId, toolName, input, rec.occurredAtMs, "");
          Ok((m.(tools := m.tools[tool := started]), None))
      case ToolCallProgressed(delta) =>
        if delta == "" then Ok((m, None))
        else if tool !in m.tools then Err(Violation(ProgressWithoutTool, tool))
        else
          var grown := m.tools[tool].(output := m.tools[tool].output + delta);
          Ok((m.(tools := m.tools[tool := grown]), None))
      case ToolCallCompleted(outcome) =>
        if tool !in m.tools then Err(Violation(CompletionWithoutTool, tool))
        else
          var t := m.tools[tool];
          Ok((m.(tools := m.tools - {tool}),
              Some(ToolRow(rec.sequence, t.sessionId, t.runId, t.turnId, t.itemId, t.toolName, t.input, t.output,
                           outcome, t.startedAtMs, rec.occurredAtMs))))
      case PendingStateChanged(state) =>
        Ok((m, Some(PendingRow(rec.sequence, rec.sessionId, rec.payload.runId, e.turnId, rec.occurredAtMs, state))))
      case TokenUsageUpdated(_, _) => Ok((m, None))
  }

  function RowsOf(row: Option<Row>): seq<Row> {
    if row.Some? then [row.value] else []
  }

  /** Applying a whole log, stopping at the first violation. */
  function Project(m: InFlight, log: seq<EventRecord>): Result<(InFlight, seq<Row>), Violation> {
    if log == [] then Ok((m, []))
    else
      match Project(m, log[..|log| - 1])
      case Err(v) => Err(v)
      case Ok((before, rows)) =>
        match Apply(before, log[|log| - 1])
        case Err(v) => Err(v)
        case Ok((after, row)) => Ok((after, rows + RowsOf(row)))
  }

  predicate Accepted(log: seq<EventRecord>) {
    Project(Empty, log).Ok?
  }

  /** The store's mutable projection: `apply_agent_stream_event` and the two maps it is called with. */
  class Projection {
    var turns: map<TurnKey, OpenTurn>
    var tools: map<ToolKey, OpenTool>

    constructor ()
      ensures State() == Empty
    {
      turns, tools := map[], map[];
    }

    function State(): InFlight
      reads this
    {
      InFlight(turns, tools)
    }

    method ApplyAgentStreamEvent(rec: EventRecord) returns (r: Result<Option<Row>, Violation>)
      modifies this
      ensures match Apply(old(State()), rec)
              case Ok((after, row)) => r == Ok(row) && State() == after
              case Err(v) => r == Err(v) && State() == old(State())
    {
      if !rec.payload.AgentStream? {
        return Ok(None);
      }
      var e := rec.payload.emission;
      var turn := KeyOfTurn(rec.sessionId, rec.payload.runId, e);
      var tool := KeyOfTool(rec.sessionId, rec.payload.runId, e);
      match e.frame {
        case AssistantTurnStarted =>
          if turn in turns {
            return Err(TurnViolation(TurnAlreadyStarted, turn));
          }
          turns := turns[turn := OpenTurn(rec.sessionId, rec.payload.runId, e.turnId, rec.occurredAtMs, "")];
          r := Ok(None);
        case AssistantMessageDelta(delta) =>
          if delta != "" {
            if turn !in turns {
              return Err(TurnViolation(DeltaWithoutTurn, turn));
            }
            turns := turns[turn := turns[turn].(text := turns[turn].text + delta)];
          }
          r := Ok(None);
        case AssistantTurnCompleted =>
          if turn !in turns {
            return Err(TurnViolation(CompletionWithoutTurn, turn));
          }
          var t := turns[turn];
          turns := turns - {turn};
          r := Ok(Some(AssistantRow(
                         rec.sequence, t.sessionId, t.runId, t.turnId, t.startedAtMs, rec.occurredAtMs, t.text)));
        case ToolCallStarted(toolName, input) =>
          if tool in tools {
            return Err(Violation(ToolAlreadyStarted, tool));
          }
          tools := tools[tool := OpenTool(rec.sessionId, rec.payload.runId, e.turnId, e.itemId, toolName, input,
                                          rec.occurredAtMs, "")];
          r := Ok(None);
        case ToolCallProgressed(delta) =>
          if delta != "" {
            if tool !in tools {
              return Err(Violation(ProgressWithoutTool, tool));
            }
            tools := tools[tool := tools[tool].(output := tools[tool].output + delta)];
          }
          r := Ok(None);
        case ToolCallCompleted(outcome) =>
          if tool !in tools {
            return Err(Violation(CompletionWithoutTool, tool));
          }
          var t := tools[tool];
          tools := tools - {tool};
          r := Ok(Some(ToolRow(rec.sequence, t.sessionId, t.runId, t.turnId, t.itemId, t.toolName, t.input, t.output,
                               outcome, t.startedAtMs, rec.occurredAtMs)));
        case PendingStateChanged(state) =>
          r := Ok(Some(PendingRow(
                         rec.sequence, rec.sessionId, rec.payload.runId, e.turnId, rec.occurredAtMs, state)));
        case TokenUsageUpdated(_, _) =>
          r := Ok(None);
      }
    }
  }

  lemma ProjectSnoc(m: InFlight, log: seq<EventRecord>, rec: EventRecord)
    ensures Project(m, log + [rec]) ==
            match Project(m, log)
            case Err(v) => Err(v)
            case Ok((before, rows)) =>
              match Apply(before, rec)
              case Err(v) => Err(v)
              case Ok((after, row)) => Ok((after, rows + RowsOf(row)))
  {
    assert (log + [rec])[..|log|] == log;
  }

  /** A prefix of an accepted log is accepted. */
  lemma {:induction false} ProjectPrefix(m: InFlight, log: seq<EventRecord>, n: nat)
    requires n <= |log| && Project(m, log).Ok?
    ensures Project(m, log[..n]).Ok?
    decreases |log|
  {
    if n < |log| {
      ProjectPrefix(m, log[..|log| - 1], n);
      assert log[..|log| - 1][..n] == log[..n];
    } else {
      assert log[..n] == log;
    }
  }
}

/**
 A reading of an event log that never mentions the maps: which record opened a slot that is still
 open, and which deltas followed it. The projection is proved to compute exactly this.
 */
module AgentTurnsLog {
  import opened Prelude
  import opened Wire
  import opened AgentTurns

  datatype Slot = TurnSlot(turn: TurnKey) | ToolSlot(tool: ToolKey)

  datatype Effect = Nothing | Open(slot: Slot) | Extend(slot: Slot, delta: string) | Close(slot: Slot)

  function EffectOf(rec: EventRecord): Effect {
    if !rec.payload.AgentStream? then Nothing
    else
      var e := rec.payload.emission;
      var turn := TurnSlot(KeyOfTurn(rec.sessionId, rec.payload.runId, e));
      var tool := ToolSlot(KeyOfTool(rec.sessionId, rec.payload.runId, e));
      match e.frame
      case AssistantTurnStarted => Open(turn)
      case AssistantMessageDelta(delta) => if delta == "" then Nothing else Extend(turn, delta)
      case AssistantTurnCompleted => Close(turn)
      case ToolCallStarted(_, _) => Open(tool)
      case ToolCallProgressed(delta) => if delta == "" then Nothing else Extend(tool, delta)
      case ToolCallCompleted(_) => Close(tool)
      case _ => Nothing
  }

  /** The index of the record that opened `slot`, if nothing after it closed the slot. */
  function OpenedAt(log: seq<EventRecord>, slot: Slot): (r: Option<nat>)
    ensures r.Some? ==> r.value < |log| && EffectOf(log[r.value]) == Open(slot)
  {
    if log == [] then None
    else
      var effect := EffectOf(log[|log| - 1]);
      if effect == Open(slot) then Some(|log| - 1)
      else if effect == Close(slot) then None
      else OpenedAt(log[..|log| - 1], slot)
  }

  /** The deltas for `slot` in a stretch of log, in order. */
  function Deltas(log: seq<EventRecord>, slot: Slot): seq<string> {
    if log == [] then []
    else
      var effect := EffectOf(log[|log| - 1]);
      Deltas(log[..|log| - 1], slot) + if effect.Extend? && effect.slot == slot then [effect.delta] else []
  }

  /** The text gathered for `slot` since record `i` opened it. */
  function TextSince(log: seq<EventRecord>, i: nat, slot: Slot): string
    requires i < |log|
  {
    Join(Deltas(log[i + 1..], slot))
  }

  /** Whether the history `log` allows `rec` next. */
  predicate Legal(log: seq<EventRecord>, rec: EventRecord) {
    match EffectOf(rec)
    case Nothing => true
    case Open(slot) => OpenedAt(log, slot).None?
    case Extend(slot, _) => OpenedAt(log, slot).Some?
    case Close(slot) => OpenedAt(log, slot).Some?
  }

  function PendingRowOf(rec: EventRecord): Option<Row> {
    if rec.payload.AgentStream? && rec.payload.emission.frame.PendingStateChanged? then
      Some(PendingRow(rec.sequence, rec.sessionId, rec.payload.runId, rec.payload.emission.turnId,
                      rec.occurredAtMs, rec.payload.emission.frame.state))
    else None
  }

  /** The row that `rec` completes after the history `log`. */
  function RowAfter(log: seq<EventRecord>, rec: EventRecord): Option<Row>
    requires Legal(log, rec)
  {
    match EffectOf(rec)
    case Close(slot) =>
      var i := OpenedAt(log, slot).value;
      var start := log[i];
      (match slot
       case TurnSlot(k) =>
         Some(AssistantRow(rec.sequence, k.sessionId, k.runId, k.turnId, start.occurredAtMs, rec.occurredAtMs,
                           TextSince(log, i, slot)))
       case ToolSlot(k) =>
         var frame := start.payload.emission.frame;
         Some(ToolRow(rec.sequence, k.sessionId, k.runId, k.turnId, k.itemId, frame.toolName, frame.input,
                      TextSince(log, i, slot), rec.payload.emission.frame.outcome,
                      start.occurredAtMs, rec.occurredAtMs)))
    case _ => PendingRowOf(rec)
  }

  predicate LegalThroughout(log: seq<EventRecord>) {
    forall i | 0 <= i < |log| :: Legal(log[..i], log[i])
  }

  function RowsAfter(log: seq<EventRecord>): seq<Row>
    requires LegalThroughout(log)
  {
    if log == [] then []
    else
      var front := log[..|log| - 1];
      assert forall i | 0 <= i < |front| :: front[..i] == log[..i];
      RowsAfter(front) + RowsOf(RowAfter(front, log[|log| - 1]))
  }

  /** The maps hold exactly the open slots of the log, with the text gathered so far. */
  ghost predicate Tracks(m: InFlight, log: seq<EventRecord>) {
    && (forall k :: TracksTurn(m, log, k))
    && (forall k :: TracksTool(m, log, k))
  }

  ghost predicate TracksTurn(m: InFlight, log: seq<EventRecord>, k: TurnKey) {
    && (k in m.turns <==> OpenedAt(log, TurnSlot(k)).Some?)
    && (k in m.turns ==> m.turns[k] == TurnFromLog(log, k))
  }

  ghost predicate TracksTool(m: InFlight, log: seq<EventRecord>, k: ToolKey) {
    && (k in m.tools <==> OpenedAt(log, ToolSlot(k)).Some?)
    && (k in m.tools ==> m.tools[k] == ToolFromLog(log, k))
  }

  ghost function TurnFromLog(log: seq<EventRecord>, k: TurnKey): OpenTurn
    requires OpenedAt(log, TurnSlot(k)).Some?
  {
    var i := OpenedAt(log, TurnSlot(k)).value;
    OpenTurn(k.sessionId, k.runId, k.turnId, log[i].occurredAtMs, TextSince(log, i, TurnSlot(k)))
  }

  ghost function ToolFromLog(log: seq<EventRecord>, k: ToolKey): OpenTool
    requires OpenedAt(log, ToolSlot(k)).Some?
  {
    var i := OpenedAt(log, ToolSlot(k)).value;
    var frame := log[i].payload.emission.frame;
    OpenTool(k.sessionId, k.runId, k.turnId, k.itemId, frame.toolName, frame.input, log[i].occurredAtMs,
             TextSince(log, i, ToolSlot(k)))
  }

  lemma OpenedAtSnoc(log: seq<EventRecord>, rec: EventRecord, slot: Slot)
    ensures OpenedAt(log + [rec], slot) ==
            if EffectOf(rec) == Open(slot) then Some(|log|)
            else if EffectOf(rec) == Close(slot) then None
            else OpenedAt(log, slot)
  {
    assert (log + [rec])[..|log|] == log;
  }

  lemma TextSinceSnoc(log: seq<EventRecord>, rec: EventRecord, i: nat, slot: Slot)
    requires i < |log|
    ensures TextSince(log + [rec], i, slot) ==
            TextSince(log, i, slot) +
            if EffectOf(rec).Extend? && EffectOf(rec).slot == slot then EffectOf(rec).delta else ""
  {
    var tail := log[i + 1..];
    assert (log + [rec])[i + 1..] == tail + [rec];
    assert (tail + [rec])[..|tail|] == tail;
    var ds := Deltas(tail, slot);
    if EffectOf(rec).Extend? && EffectOf(rec).slot == slot {
      assert (ds + [EffectOf(rec).delta])[..|ds|] == ds;
    } else {
      assert ds + [] == ds;
    }
  }

  lemma TextSinceOpening(log: seq<EventRecord>, rec: EventRecord, slot: Slot)
    ensures TextSince(log + [rec], |log|, slot) == ""
  {
    assert (log + [rec])[|log| + 1..] == [];
  }

  /** What a record that is not refused does to the entry of one turn key. */
  ghost predicate TurnStep(before: map<TurnKey, OpenTurn>, after: map<TurnKey, OpenTurn>, rec: EventRecord, k: TurnKey) {
    var effect := EffectOf(rec);
    if effect == Open(TurnSlot(k)) then
      k in after && after[k] == OpenTurn(k.sessionId, k.runId, k.turnId, rec.occurredAtMs, "")
    else if effect == Close(TurnSlot(k)) then k !in after
    else if effect.Extend? && effect.slot == TurnSlot(k) then
      k in before && k in after && after[k] == before[k].(text := before[k].text + effect.delta)
    else (k in after <==> k in before) && (k in before ==> after[k] == before[k])
  }

  /** What a record that is not refused does to the entry of one tool key. */
  ghost predicate ToolStep(before: map<ToolKey, OpenTool>, after: map<ToolKey, OpenTool>, rec: EventRecord, k: ToolKey) {
    var effect := EffectOf(rec);
    if effect == Open(ToolSlot(k)) then
      var frame := rec.payload.emission.frame;
      k in after && after[k] == OpenTool(k.sessionId, k.runId, k.turnId, k.itemId, frame.toolName, frame.input,
                                         rec.occurredAtMs, "")
    else if effect == Close(ToolSlot(k)) then k !in after
    else if effect.Extend? && effect.slot == ToolSlot(k) then
      k in before && k in after && after[k] == before[k].(output := before[k].output + effect.delta)
    else (k in after <==> k in before) && (k in before ==> after[k] == before[k])
  }

  lemma ApplyTurnStep(m: InFlight, rec: EventRecord, k: TurnKey)
    requires Apply(m, rec).Ok?
    ensures TurnStep(m.turns, Apply(m, rec).value.0.turns, rec, k)
  {
  }

  lemma ApplyToolStep(m: InFlight, rec: EventRecord, k: ToolKey)
    requires Apply(m, rec).Ok?
    ensures ToolStep(m.tools, Apply(m, rec).value.0.tools, rec, k)
  {
  }

  /** The per-key description pins the maps down. */
  lemma StepsDetermine(m: InFlight, rec: EventRecord, other: InFlight)
    requires Apply(m, rec).Ok?
    requires forall k :: TurnStep(m.turns, other.turns, rec, k)
    requires forall k :: ToolStep(m.tools, other.tools, rec, k)
    ensures Apply(m, rec).value.0 == other
  {
    var after := Apply(m, rec).value.0;
    forall k ensures TurnsAgree(after.turns, other.turns, k) {
      ApplyTurnStep(m, rec, k);
      TurnStepUnique(m.turns, after.turns, other.turns, rec, k);
    }
    forall k ensures ToolsAgree(after.tools, other.tools, k) {
      ApplyToolStep(m, rec, k);
      ToolStepUnique(m.tools, after.tools, other.tools, rec, k);
    }
    SameMaps(after, other);
  }

  lemma SameMaps(a: InFlight, b: InFlight)
    requires forall k :: TurnsAgree(a.turns, b.turns, k)
    requires forall k :: ToolsAgree(a.tools, b.tools, k)
    ensures a == b
  {
    forall k ensures (k in a.turns <==> k in b.turns) && (k in a.turns ==> a.turns[k] == b.turns[k]) {
      assert TurnsAgree(a.turns, b.turns, k);
    }
    forall k ensures (k in a.tools <==> k in b.tools) && (k in a.tools ==> a.tools[k] == b.tools[k]) {
      assert ToolsAgree(a.tools, b.tools, k);
    }
    assert a.turns == b.turns && a.tools == b.tools;
  }

  ghost predicate TurnsAgree(a: map<TurnKey, OpenTurn>, b: map<TurnKey, OpenTurn>, k: TurnKey) {
    (k in a <==> k in b) && (k in a ==> a[k] == b[k])
  }

  ghost predicate ToolsAgree(a: map<ToolKey, OpenTool>, b: map<ToolKey, OpenTool>, k: ToolKey) {
    (k in a <==> k in b) && (k in a ==> a[k] == b[k])
  }

  lemma TurnStepUnique(m: map<TurnKey, OpenTurn>, a: map<TurnKey, OpenTurn>, b: map<TurnKey, OpenTurn>,
                       rec: EventRecord, k: TurnKey)
    requires TurnStep(m, a, rec, k) && TurnStep(m, b, rec, k)
    ensures TurnsAgree(a, b, k)
  {
  }

  lemma ToolStepUnique(m: map<ToolKey, OpenTool>, a: map<ToolKey, OpenTool>, b: map<ToolKey, OpenTool>,
                       rec: EventRecord, k: ToolKey)
    requires ToolStep(m, a, rec, k) && ToolStep(m, b, rec, k)
    ensures ToolsAgree(a, b, k)
  {
  }

  lemma TurnStepTracks(m: InFlight, after: InFlight, log: seq<EventRecord>, rec: EventRecord, k: TurnKey)
    requires TracksTurn(m, log, k) && TurnStep(m.turns, after.turns, rec, k)
    ensures TracksTurn(after, log + [rec], k)
  {
    OpenedAtSnoc(log, rec, TurnSlot(k));
    if EffectOf(rec) == Open(TurnSlot(k)) {
      TextSinceOpening(log, rec, TurnSlot(k));
    } else if k in m.turns {
      TextSinceSnoc(log, rec, OpenedAt(log, TurnSlot(k)).value, TurnSlot(k));
    }
  }

  lemma ToolStepTracks(m: InFlight, after: InFlight, log: seq<EventRecord>, rec: EventRecord, k: ToolKey)
    requires TracksTool(m, log, k) && ToolStep(m.tools, after.tools, rec, k)
    ensures TracksTool(after, log + [rec], k)
  {
    OpenedAtSnoc(log, rec, ToolSlot(k));
    if EffectOf(rec) == Open(ToolSlot(k)) {
      TextSinceOpening(log, rec, ToolSlot(k));
    } else if k in m.tools {
      TextSinceSnoc(log, rec, OpenedAt(log, ToolSlot(k)).value, ToolSlot(k));
    }
  }

  /** One record keeps the maps and the log in step. */
  lemma ApplyTracks(m: InFlight, log: seq<EventRecord>, rec: EventRecord)
    requires Tracks(m, log) && Apply(m, rec).Ok?
    ensures Tracks(Apply(m, rec).value.0, log + [rec])
  {
    var after := Apply(m, rec).value.0;
    forall k ensures TracksTurn(after, log + [rec], k) {
      ApplyTurnStep(m, rec, k);
      TurnStepTracks(m, after, log, rec, k);
    }
    forall k ensures TracksTool(after, log + [rec], k) {
      ApplyToolStep(m, rec, k);
      ToolStepTracks(m, after, log, rec, k);
    }
  }

  /** Whether the maps allow `rec` next. */
  predicate Allows(m: InFlight, rec: EventRecord) {
    match EffectOf(rec)
    case Nothing => true
    case Open(TurnSlot(k)) => k !in m.turns
    case Open(ToolSlot(k)) => k !in m.tools
    case Extend(TurnSlot(k), _) => k in m.turns
    case Extend(ToolSlot(k), _) => k in m.tools
    case Close(TurnSlot(k)) => k in m.turns
    case Close(ToolSlot(k)) => k in m.tools
  }

  lemma ApplyAllows(m: InFlight, rec: EventRecord)
    ensures Apply(m, rec).Ok? <==> Allows(m, rec)
  {
  }

  /** The row that `rec` completes, read off the maps. */
  function RowNow(m: InFlight, rec: EventRecord): Option<Row>
    requires Allows(m, rec)
  {
    match EffectOf(rec)
    case Close(TurnSlot(k)) =>
      var t := m.turns[k];
      Some(AssistantRow(rec.sequence, t.sessionId, t.runId, t.turnId, t.startedAtMs, rec.occurredAtMs, t.text))
    case Close(ToolSlot(k)) =>
      var t := m.tools[k];
      Some(ToolRow(rec.sequence, t.sessionId, t.runId, t.turnId, t.itemId, t.toolName, t.input, t.output,
                   rec.payload.emission.frame.outcome, t.startedAtMs, rec.occurredAtMs))
    case _ => PendingRowOf(rec)
  }

  lemma ApplyRowNow(m: InFlight, rec: EventRecord)
    requires Allows(m, rec) && Apply(m, rec).Ok?
    ensures Apply(m, rec).value.1 == RowNow(m, rec)
  {
  }

  lemma AllowsIsLegal(m: InFlight, log: seq<EventRecord>, rec: EventRecord)
    requires Tracks(m, log)
    ensures Allows(m, rec) <==> Legal(log, rec)
  {
    match EffectOf(rec) {
      case Nothing =>
      case Open(TurnSlot(k)) => assert TracksTurn(m, log, k);
      case Open(ToolSlot(k)) => assert TracksTool(m, log, k);
      case Extend(TurnSlot(k), _) => assert TracksTurn(m, log, k);
      case Extend(ToolSlot(k), _) => assert TracksTool(m, log, k);
      case Close(TurnSlot(k)) => assert TracksTurn(m, log, k);
      case Close(ToolSlot(k)) => assert TracksTool(m, log, k);
    }
  }

  /** The row a record completes is the one the log spells out. */
  lemma RowNowIsRowAfter(m: InFlight, log: seq<EventRecord>, rec: EventRecord)
    requires Tracks(m, log) && Legal(log, rec) && Allows(m, rec)
    ensures RowNow(m, rec) == RowAfter(log, rec)
  {
    match EffectOf(rec) {
      case Close(TurnSlot(k)) => assert TracksTurn(m, log, k);
      case Close(ToolSlot(k)) => assert TracksTool(m, log, k);
      case _ =>
    }
  }

  lemma LegalThroughoutSnoc(log: seq<EventRecord>, rec: EventRecord)
    ensures LegalThroughout(log + [rec]) <==> LegalThroughout(log) && Legal(log, rec)
  {
    var longer := log + [rec];
    assert forall i | 0 <= i < |log| :: longer[..i] == log[..i] && longer[i] == log[i];
    assert longer[..|log|] == log && longer[|log|] == rec;
    if LegalThroughout(longer) {
      forall i | 0 <= i < |log| ensures Legal(log[..i], log[i]) {
        assert Legal(longer[..i], longer[i]);
      }
    }
  }

  lemma RowsAfterSnoc(log: seq<EventRecord>, rec: EventRecord)
    requires LegalThroughout(log) && Legal(log, rec) && LegalThroughout(log + [rec])
    ensures RowsAfter(log + [rec]) == RowsAfter(log) + RowsOf(RowAfter(log, rec))
  {
    assert (log + [rec])[..|log|] == log;
  }

  /**
   Row exactness: a log is accepted exactly when every record is legal after the ones before it; the
   rows are then exactly the ones the log spells out, and the maps hold exactly its open slots.
   */
  lemma {:induction false} ProjectionReadsTheLog(log: seq<EventRecord>)
    ensures Accepted(log) <==> LegalThroughout(log)
    ensures Accepted(log) ==> Tracks(Project(Empty, log).value.0, log)
    ensures Accepted(log) ==> Project(Empty, log).value.1 == RowsAfter(log)
  {
    if log != [] {
      var front, last := log[..|log| - 1], log[|log| - 1];
      ProjectionReadsTheLog(front);
      assert log == front + [last];
      LegalThroughoutSnoc(front, last);
      ProjectSnoc(Empty, front, last);
      if Accepted(front) {
        var before := Project(Empty, front).value.0;
        ApplyAllows(before, last);
        AllowsIsLegal(before, front, last);
        if Apply(before, last).Ok? {
          ApplyTracks(before, front, last);
          ApplyRowNow(before, last);
          RowNowIsRowAfter(before, front, last);
          RowsAfterSnoc(front, last);
        }
      }
    }
  }
}
