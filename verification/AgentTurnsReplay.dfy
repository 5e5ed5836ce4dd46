/**
 What survives when part of a log is dropped: the transient records (a replay from the durable
 events of crates/ta-store/src/events.rs) or the records of other sessions and runs.
 */
module AgentTurnsReplay {
  import opened Prelude
  import opened Wire
  import opened AgentTurns
  import opened AgentTurnsLog

  // Replay from the durable records.

  predicate IsDurable(rec: EventRecord) {
    EventPersistence(rec.payload) == Durable
  }

  function DurableOf(log: seq<EventRecord>): seq<EventRecord> {
    Filter(IsDurable, log)
  }

  /** The maps with the gathered text and output erased. */
  function Blank(m: InFlight): InFlight {
    InFlight(map k | k in m.turns :: m.turns[k].(text := ""), map k | k in m.tools :: m.tools[k].(output := ""))
  }

  function BlankRow(row: Row): Row {
    match row
    case AssistantRow(_, _, _, _, _, _, _) => row.(text := "")
    case ToolRow(_, _, _, _, _, _, _, _, _, _, _) => row.(output := "")
    case PendingRow(_, _, _, _, _, _) => row
  }

  function BlankRows(rows: seq<Row>): seq<Row> {
    seq(|rows|, i requires 0 <= i < |rows| => BlankRow(rows[i]))
  }

  lemma TransientStep(m: InFlight, rec: EventRecord)
    requires Apply(m, rec).Ok? && !IsDurable(rec)
    ensures Apply(m, rec).value.1 == None
    ensures Blank(Apply(m, rec).value.0) == Blank(m)
  {
    var after := Apply(m, rec).value.0;
    forall k ensures TurnsAgree(Blank(after).turns, Blank(m).turns, k) {
      ApplyTurnStep(m, rec, k);
    }
    forall k ensures ToolsAgree(Blank(after).tools, Blank(m).tools, k) {
      ApplyToolStep(m, rec, k);
    }
    SameMaps(Blank(after), Blank(m));
  }

  lemma DurableRow(m: InFlight, rec: EventRecord)
    requires Allows(m, rec) && Allows(Blank(m), rec)
    ensures RowsOf(RowNow(Blank(m), rec)) == BlankRows(RowsOf(RowNow(m, rec)))
  {
  }

  lemma DurableStep(m: InFlight, rec: EventRecord)
    requires Apply(m, rec).Ok? && IsDurable(rec)
    ensures Apply(Blank(m), rec).Ok?
    ensures Apply(Blank(m), rec).value.0 == Blank(Apply(m, rec).value.0)
    ensures RowsOf(Apply(Blank(m), rec).value.1) == BlankRows(RowsOf(Apply(m, rec).value.1))
  {
    ApplyAllows(m, rec);
    ApplyAllows(Blank(m), rec);
    var after := Apply(m, rec).value.0;
    forall k ensures TurnStep(Blank(m).turns, Blank(after).turns, rec, k) {
      ApplyTurnStep(m, rec, k);
      DurableEffect(rec);
    }
    forall k ensures ToolStep(Blank(m).tools, Blank(after).tools, rec, k) {
      ApplyToolStep(m, rec, k);
      DurableEffect(rec);
    }
    StepsDetermine(Blank(m), rec, Blank(after));
    ApplyRowNow(m, rec);
    ApplyRowNow(Blank(m), rec);
    DurableRow(m, rec);
  }

  /** A durable record never extends a slot. */
  lemma DurableEffect(rec: EventRecord)
    requires IsDurable(rec)
    ensures !EffectOf(rec).Extend?
  {
  }

  /**
   Durable replay refines the live projection: the durable records of an accepted log are accepted,
   leave the same keys in flight and yield the same rows, all with empty text and output.
   */
  lemma {:induction false} DurableReplay(log: seq<EventRecord>)
    requires Accepted(log)
    ensures var (live, rows) := Project(Empty, log).value;
            Project(Empty, DurableOf(log)) == Ok((Blank(live), BlankRows(rows)))
  {
    if log == [] {
      assert Blank(Empty) == Empty && BlankRows([]) == [];
    } else {
      var front, last := log[..|log| - 1], log[|log| - 1];
      DurableReplay(front);
      var (before, rows) := Project(Empty, front).value;
      var row := Apply(before, last).value.1;
      assert BlankRows(rows + RowsOf(row)) == BlankRows(rows) + BlankRows(RowsOf(row));
      if IsDurable(last) {
        DurableStep(before, last);
        ProjectSnoc(Empty, DurableOf(front), last);
      } else {
        TransientStep(before, last);
        assert DurableOf(log) == DurableOf(front);
        assert rows + RowsOf(row) == rows;
      }
    }
  }

  /** Every delta of the log falls on a slot that the durable records before it hold open. */
  predicate Grounded(log: seq<EventRecord>) {
    log == [] ||
    (var front, effect := log[..|log| - 1], EffectOf(log[|log| - 1]);
     Grounded(front) && (effect.Extend? ==> OpenedAt(DurableOf(front), effect.slot).Some?))
  }

  lemma {:induction false} OpenInDurable(log: seq<EventRecord>, slot: Slot)
    ensures OpenedAt(log, slot).Some? <==> OpenedAt(DurableOf(log), slot).Some?
  {
    if log != [] {
      var front, last := log[..|log| - 1], log[|log| - 1];
      OpenInDurable(front, slot);
      if IsDurable(last) {
        OpenedAtSnoc(DurableOf(front), last, slot);
      } else {
        assert DurableOf(log) == DurableOf(front);
      }
    }
  }

  lemma LegalInDurable(log: seq<EventRecord>, rec: EventRecord)
    ensures Legal(log, rec) <==> Legal(DurableOf(log), rec)
  {
    match EffectOf(rec) {
      case Nothing =>
      case Open(slot) => OpenInDurable(log, slot);
      case Extend(slot, _) => OpenInDurable(log, slot);
      case Close(slot) => OpenInDurable(log, slot);
    }
  }

  /**
   The exact price of replaying only durable records: the live log is accepted if and only if its
   durable records are and every delta falls on a slot those records hold open.
   */
  lemma {:induction false} LiveExactlyWhenGrounded(log: seq<EventRecord>)
    ensures Accepted(log) <==> Accepted(DurableOf(log)) && Grounded(log)
  {
    ProjectionReadsTheLog(log);
    ProjectionReadsTheLog(DurableOf(log));
    LegalWhenGrounded(log);
  }

  lemma {:induction false} LegalWhenGrounded(log: seq<EventRecord>)
    ensures LegalThroughout(log) <==> LegalThroughout(DurableOf(log)) && Grounded(log)
  {
    if log != [] {
      var front, last := log[..|log| - 1], log[|log| - 1];
      assert log == front + [last];
      LegalWhenGrounded(front);
      LegalThroughoutSnoc(front, last);
      LegalInDurable(front, last);
      if IsDurable(last) {
        LegalThroughoutSnoc(DurableOf(front), last);
      } else {
        assert DurableOf(log) == DurableOf(front);
      }
    }
  }

  const STRAY_DELTA: EventRecord :=
    EventRecord(1, "session", 0, AgentStream("run", Emission(Some("turn-1"), None, Some(0), AssistantMessageDelta("text"))))

  /** And there is a difference: a delta for a turn that was never started is refused live, and leaves no trace. */
  lemma StrayDeltaIsRefusedLiveOnly()
    ensures !Accepted([STRAY_DELTA]) && !Grounded([STRAY_DELTA])
    ensures DurableOf([STRAY_DELTA]) == [] && Accepted(DurableOf([STRAY_DELTA]))
  {
    var log := [STRAY_DELTA];
    assert log[..0] == [];
    assert DurableOf([]) == [];
    LiveExactlyWhenGrounded(log);
  }

  // Projecting one session's records, or one run's.

  datatype Part = Part(sessionId: string, runId: Option<string>) {
    predicate Holds(session: string, run: Option<string>) {
      session == sessionId && (runId.None? || run == runId)
    }
  }

  predicate InPart(part: Part, rec: EventRecord) {
    part.Holds(rec.sessionId, EventRunId(rec.payload))
  }

  predicate RowInPart(part: Part, row: Row) {
    part.Holds(row.sessionId, Some(row.runId))
  }

  function PartOf(part: Part, log: seq<EventRecord>): seq<EventRecord> {
    Filter(rec => InPart(part, rec), log)
  }

  function RowsOfPart(part: Part, rows: seq<Row>): seq<Row> {
    Filter(row => RowInPart(part, row), rows)
  }

  /** The entries of the maps that belong to a part. */
  function Restrict(part: Part, m: InFlight): InFlight {
    InFlight(map k | k in m.turns && part.Holds(k.sessionId, Some(k.runId)) :: m.turns[k],
             map k | k in m.tools && part.Holds(k.sessionId, Some(k.runId)) :: m.tools[k])
  }

  /** Entries carry the session and run of their key. */
  predicate WellKeyed(m: InFlight) {
    && (forall k | k in m.turns :: m.turns[k].sessionId == k.sessionId && m.turns[k].runId == k.runId)
    && (forall k | k in m.tools :: m.tools[k].sessionId == k.sessionId && m.tools[k].runId == k.runId)
  }

  lemma WellKeyedStep(m: InFlight, rec: EventRecord)
    requires WellKeyed(m) && Apply(m, rec).Ok?
    ensures WellKeyed(Apply(m, rec).value.0)
  {
    var after := Apply(m, rec).value.0;
    forall k | k in after.turns
      ensures after.turns[k].sessionId == k.sessionId && after.turns[k].runId == k.runId
    {
      ApplyTurnStep(m, rec, k);
    }
    forall k | k in after.tools
      ensures after.tools[k].sessionId == k.sessionId && after.tools[k].runId == k.runId
    {
      ApplyToolStep(m, rec, k);
    }
  }

  lemma {:induction false} ProjectWellKeyed(log: seq<EventRecord>)
    requires Accepted(log)
    ensures WellKeyed(Project(Empty, log).value.0)
  {
    if log != [] {
      ProjectWellKeyed(log[..|log| - 1]);
      WellKeyedStep(Project(Empty, log[..|log| - 1]).value.0, log[|log| - 1]);
    }
  }

  lemma OutsideStep(part: Part, m: InFlight, rec: EventRecord)
    requires Apply(m, rec).Ok? && !InPart(part, rec)
    ensures Restrict(part, Apply(m, rec).value.0) == Restrict(part, m)
  {
    var a, b := Restrict(part, Apply(m, rec).value.0), Restrict(part, m);
    forall k ensures TurnsAgree(a.turns, b.turns, k) {
      ApplyTurnStep(m, rec, k);
    }
    forall k ensures ToolsAgree(a.tools, b.tools, k) {
      ApplyToolStep(m, rec, k);
    }
    SameMaps(a, b);
  }

  /** A part accepts exactly the records of its own that the whole accepts. */
  lemma InsideAllowed(part: Part, m: InFlight, rec: EventRecord)
    requires InPart(part, rec)
    ensures Allows(m, rec) <==> Allows(Restrict(part, m), rec)
  {
  }

  /** A record's row belongs to the part that the record belongs to. */
  lemma RowPart(part: Part, m: InFlight, rec: EventRecord)
    requires WellKeyed(m) && Allows(m, rec)
    ensures RowNow(m, rec).Some? ==> (RowInPart(part, RowNow(m, rec).value) <==> InPart(part, rec))
  {
  }

  lemma InsideStep(part: Part, m: InFlight, rec: EventRecord)
    requires Apply(m, rec).Ok? && InPart(part, rec)
    ensures Apply(Restrict(part, m), rec).Ok?
    ensures Apply(Restrict(part, m), rec).value == (Restrict(part, Apply(m, rec).value.0), Apply(m, rec).value.1)
  {
    var inner, after := Restrict(part, m), Apply(m, rec).value.0;
    InsideAllowed(part, m, rec);
    ApplyAllows(m, rec);
    ApplyAllows(inner, rec);
    forall k ensures TurnStep(inner.turns, Restrict(part, after).turns, rec, k) {
      ApplyTurnStep(m, rec, k);
    }
    forall k ensures ToolStep(inner.tools, Restrict(part, after).tools, rec, k) {
      ApplyToolStep(m, rec, k);
    }
    StepsDetermine(inner, rec, Restrict(part, after));
    ApplyRowNow(m, rec);
    ApplyRowNow(inner, rec);
  }

  lemma RowsOfPartSnoc(part: Part, rows: seq<Row>, row: Option<Row>)
    ensures RowsOfPart(part, rows + RowsOf(row)) ==
            RowsOfPart(part, rows) + if row.Some? && RowInPart(part, row.value) then [row.value] else []
  {
    if row.Some? {
      FilterSnoc(r => RowInPart(part, r), rows, row.value);
    } else {
      assert rows + RowsOf(row) == rows;
    }
  }

  lemma PartOfSnoc(part: Part, log: seq<EventRecord>, rec: EventRecord)
    ensures PartOf(part, log + [rec]) == PartOf(part, log) + if InPart(part, rec) then [rec] else []
  {
    FilterSnoc(r => InPart(part, r), log, rec);
  }

  /**
   Locality: the records of one session, or of one run of it, project to exactly that part's rows, in
   order, and to exactly that part of the maps.
   */
  lemma {:induction false} PartProjection(part: Part, log: seq<EventRecord>)
    requires Accepted(log)
    ensures var (whole, rows) := Project(Empty, log).value;
            Project(Empty, PartOf(part, log)) == Ok((Restrict(part, whole), RowsOfPart(part, rows)))
  {
    if log == [] {
      assert Restrict(part, Empty) == Empty;
    } else {
      var front, last := log[..|log| - 1], log[|log| - 1];
      assert log == front + [last];
      PartProjection(part, front);
      ProjectWellKeyed(front);
      PartOfSnoc(part, front, last);
      var (before, rows) := Project(Empty, front).value;
      var row := Apply(before, last).value.1;
      RowsOfPartSnoc(part, rows, row);
      ApplyAllows(before, last);
      ApplyRowNow(before, last);
      RowPart(part, before, last);
      if InPart(part, last) {
        InsideStep(part, before, last);
        ProjectSnoc(Empty, PartOf(part, front), last);
      } else {
        OutsideStep(part, before, last);
        assert PartOf(part, log) == PartOf(part, front);
        assert RowsOfPart(part, rows + RowsOf(row)) == RowsOfPart(part, rows);
      }
    }
  }

  /** Runs do not disturb each other: a log is accepted if and only if the records of each run are. */
  lemma {:induction false} AcceptedRunByRun(log: seq<EventRecord>)
    ensures Accepted(log) <==> forall session, run :: Accepted(PartOf(Part(session, Some(run)), log))
  {
    if Accepted(log) {
      forall session, run ensures Accepted(PartOf(Part(session, Some(run)), log)) {
        PartProjection(Part(session, Some(run)), log);
      }
    } else {
      var session, run := RefusedRun(log);
      assert !Accepted(PartOf(Part(session, Some(run)), log));
    }
  }

  /** A refused log has a run whose own records are refused. */
  lemma {:induction false} RefusedRun(log: seq<EventRecord>) returns (session: string, run: string)
    requires !Accepted(log)
    ensures !Accepted(PartOf(Part(session, Some(run)), log))
  {
    var front, last := log[..|log| - 1], log[|log| - 1];
    assert log == front + [last];
    if Accepted(front) {
      session, run := last.sessionId, last.payload.runId;
      var part := Part(session, Some(run));
      PartProjection(part, front);
      var before := Project(Empty, front).value.0;
      InsideAllowed(part, before, last);
      ApplyAllows(before, last);
      ApplyAllows(Restrict(part, before), last);
      PartOfSnoc(part, front, last);
      ProjectSnoc(Empty, PartOf(part, front), last);
    } else {
      session, run := RefusedRun(front);
      var part := Part(session, Some(run));
      PartOfSnoc(part, front, last);
      ProjectSnoc(Empty, PartOf(part, front), last);
      assert PartOf(part, front) + [] == PartOf(part, front);
    }
  }
}
