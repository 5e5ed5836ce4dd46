/**
 The frames a run pushes, against the projection that consumes them: the turn loop of
 crates/taugentic-agent and the in-flight maps of crates/ta-store form one protocol.
 */
module AgentLoopFrames {
  import opened Prelude
  import opened Wire
  import opened AgentTurns
  import opened AgentTurnsLog
  import opened AgentTurnsReplay
  import opened AgentLoop
  import opened AgentLoopTools
  import opened AgentLoopBounds
  import S = Session
  import C = Collector

  /** Where and when the sink records the frames of one run. */
  datatype Recorder = Recorder(sessionId: string, runId: string, sequence: nat -> nat, clock: nat -> nat)

  function RecordOf(r: Recorder, i: nat, e: Emission): EventRecord {
    EventRecord(r.sequence(i), r.sessionId, r.clock(i), AgentStream(r.runId, e))
  }

  function RecordsOf(r: Recorder, trace: seq<Emission>): seq<EventRecord> {
    if trace == [] then []
    else RecordsOf(r, trace[..|trace| - 1]) + [RecordOf(r, |trace| - 1, trace[|trace| - 1])]
  }

  /** No tool call id is started twice in one turn. */
  predicate DistinctStarts(trace: seq<Emission>) {
    forall i, j | 0 <= i < j < |trace| && IsStart(trace[i]) && IsStart(trace[j]) :: ItemOf(trace[i]) != ItemOf(trace[j])
  }

  predicate IsStart(e: Emission) {
    e.frame.ToolCallStarted?
  }

  function ItemOf(e: Emission): (Option<string>, Option<string>) {
    (e.turnId, e.itemId)
  }

  lemma RecordsSnoc(r: Recorder, trace: seq<Emission>, e: Emission)
    ensures RecordsOf(r, trace + [e]) == RecordsOf(r, trace) + [RecordOf(r, |trace|, e)]
  {
    assert (trace + [e])[..|trace|] == trace;
  }

  lemma DistinctSnoc(trace: seq<Emission>, e: Emission)
    ensures DistinctStarts(trace + [e]) <==>
            DistinctStarts(trace) &&
            (IsStart(e) ==> forall i | 0 <= i < |trace| && IsStart(trace[i]) :: ItemOf(trace[i]) != ItemOf(e))
  {
    var longer := trace + [e];
    assert forall i | 0 <= i < |trace| :: longer[i] == trace[i];
    assert longer[|trace|] == e;
    if DistinctStarts(longer) {
      assert forall i, j | 0 <= i < j < |trace| :: longer[i] == trace[i] && longer[j] == trace[j];
      if IsStart(e) {
        forall i | 0 <= i < |trace| && IsStart(trace[i]) ensures ItemOf(trace[i]) != ItemOf(e) {
          assert longer[i] == trace[i];
        }
      }
    }
  }

  lemma TurnIdInjective(m: nat, n: nat)
    requires TurnId(m) == TurnId(n)
    ensures m == n
  {
    assert Decimal(m) == TurnId(m)[5..] && Decimal(n) == TurnId(n)[5..];
    DecimalInjective(m, n);
  }

  function TurnIds(turns: set<nat>): set<string> {
    set n | n in turns :: TurnId(n)
  }

  lemma TurnIdsMember(turns: set<nat>, t: nat)
    ensures TurnId(t) in TurnIds(turns) <==> t in turns
  {
    if TurnId(t) in TurnIds(turns) {
      var n :| n in turns && TurnId(n) == TurnId(t);
      TurnIdInjective(n, t);
    }
  }

  // The maps, described by the open turns' ids and the open calls' ids.

  ghost predicate TurnsMatch(r: Recorder, m: InFlight, open: set<string>) {
    forall k :: k in m.turns <==>
      k.sessionId == r.sessionId && k.runId == r.runId && k.turnId.Some? && k.turnId.value in open
  }

  ghost predicate ItemsMatch(r: Recorder, m: InFlight, turnId: string, items: set<string>) {
    forall k :: k in m.tools <==>
      && k.sessionId == r.sessionId && k.runId == r.runId && k.turnId == Some(turnId)
      && k.itemId.Some? && k.itemId.value in items
  }

  ghost predicate Match(r: Recorder, m: InFlight, open: set<string>, turnId: string, items: set<string>) {
    TurnsMatch(r, m, open) && ItemsMatch(r, m, turnId, items)
  }

  /** The slots that a frame of turn `turnId` opens, closes or needs. */
  predicate Fits(e: Emission, open: set<string>, turnId: string, items: set<string>) {
    match e.frame
    case AssistantTurnStarted => e.turnId.Some? && e.turnId.value !in open
    case AssistantMessageDelta(_) => e.turnId.Some? && e.turnId.value in open
    case AssistantTurnCompleted => e.turnId.Some? && e.turnId.value in open
    case ToolCallStarted(_, _) => e.turnId == Some(turnId) && e.itemId.Some? && e.itemId.value !in items
    case ToolCallProgressed(_) => e.turnId == Some(turnId) && e.itemId.Some? && e.itemId.value in items
    case ToolCallCompleted(_) => e.turnId == Some(turnId) && e.itemId.Some? && e.itemId.value in items
    case _ => true
  }

  function OpenAfter(e: Emission, open: set<string>): set<string> {
    if e.turnId.None? then open
    else if e.frame.AssistantTurnStarted? then open + {e.turnId.value}
    else if e.frame.AssistantTurnCompleted? then open - {e.turnId.value}
    else open
  }

  function ItemsAfter(e: Emission, items: set<string>): set<string> {
    if e.itemId.None? then items
    else if e.frame.ToolCallStarted? then items + {e.itemId.value}
    else if e.frame.ToolCallCompleted? then items - {e.itemId.value}
    else items
  }

  lemma FitsAllowed(r: Recorder, m: InFlight, i: nat, e: Emission, open: set<string>, turnId: string, items: set<string>)
    requires Match(r, m, open, turnId, items) && Fits(e, open, turnId, items)
    ensures Allows(m, RecordOf(r, i, e))
  {
  }

  lemma FitsTurns(r: Recorder, m: InFlight, after: InFlight, i: nat, e: Emission,
                  open: set<string>, turnId: string, items: set<string>)
    requires TurnsMatch(r, m, open) && Fits(e, open, turnId, items)
    requires forall k :: TurnStep(m.turns, after.turns, RecordOf(r, i, e), k)
    ensures TurnsMatch(r, after, OpenAfter(e, open))
  {
    forall k
      ensures k in after.turns <==>
              k.sessionId == r.sessionId && k.runId == r.runId && k.turnId.Some? && k.turnId.value in OpenAfter(e, open)
    {
      assert TurnStep(m.turns, after.turns, RecordOf(r, i, e), k);
    }
  }

  lemma FitsItems(r: Recorder, m: InFlight, after: InFlight, i: nat, e: Emission,
                  open: set<string>, turnId: string, items: set<string>)
    requires ItemsMatch(r, m, turnId, items) && Fits(e, open, turnId, items)
    requires forall k :: ToolStep(m.tools, after.tools, RecordOf(r, i, e), k)
    ensures ItemsMatch(r, after, turnId, ItemsAfter(e, items))
  {
    forall k
      ensures k in after.tools <==>
              && k.sessionId == r.sessionId && k.runId == r.runId && k.turnId == Some(turnId)
              && k.itemId.Some? && k.itemId.value in ItemsAfter(e, items)
    {
      assert ToolStep(m.tools, after.tools, RecordOf(r, i, e), k);
    }
  }

  /** A frame that fits is accepted and changes the open slots as it says. */
  lemma ApplyFits(r: Recorder, m: InFlight, i: nat, e: Emission, open: set<string>, turnId: string, items: set<string>)
    requires Match(r, m, open, turnId, items) && Fits(e, open, turnId, items)
    ensures Apply(m, RecordOf(r, i, e)).Ok?
    ensures Match(r, Apply(m, RecordOf(r, i, e)).value.0, OpenAfter(e, open), turnId, ItemsAfter(e, items))
  {
    var rec := RecordOf(r, i, e);
    FitsAllowed(r, m, i, e, open, turnId, items);
    ApplyAllows(m, rec);
    var after := Apply(m, rec).value.0;
    forall k ensures TurnStep(m.turns, after.turns, rec, k) { ApplyTurnStep(m, rec, k); }
    forall k ensures ToolStep(m.tools, after.tools, rec, k) { ApplyToolStep(m, rec, k); }
    FitsTurns(r, m, after, i, e, open, turnId, items);
    FitsItems(r, m, after, i, e, open, turnId, items);
  }

  /** Starting a call that is already open is refused. */
  lemma RestartRefused(r: Recorder, m: InFlight, i: nat, e: Emission, turnId: string, items: set<string>)
    requires ItemsMatch(r, m, turnId, items) && IsStart(e)
    requires e.turnId == Some(turnId) && e.itemId.Some? && e.itemId.value in items
    ensures Apply(m, RecordOf(r, i, e)).Err?
  {
    ApplyAllows(m, RecordOf(r, i, e));
  }

  // The invariant of a run.

  /** The turns of the run that are open in the trace. */
  function OpenTurns(s: State): set<nat> {
    s.abandoned + if s.turnOpen then {s.turns} else {}
  }

  /** The calls of the current turn that are open in the trace. */
  function OpenItems(s: State): set<string> {
    set i | 0 <= i < |s.pushed| && i < |s.calls| && s.pushed[i].Started? :: s.calls[i].id
  }

  /** Which frames have been pushed for the current turn and its calls in each phase. */
  predicate PushedInv(s: State) {
    && |s.pushed| == |s.calls| == |s.tasks|
    && (forall n | n in s.abandoned :: 1 <= n <= s.turns && (n < s.turns || s.phase.Top? || s.phase.Ended?))
    && (s.turnOpen ==> s.turns !in s.abandoned)
    && (forall i | 0 <= i < |s.tasks| && IsActive(s.tasks[i]) :: s.pushed[i].Started?)
    && match s.phase
       case Ended(Succeeded(_)) => !s.turnOpen && (forall i | 0 <= i < |s.pushed| :: !s.pushed[i].Started?)
       case Ended(_) => true
       case Recorded(_) => s.turnOpen && (forall i | 0 <= i < |s.pushed| :: s.pushed[i].Unstarted?)
       case Settled(_) => !s.turnOpen && (forall i | 0 <= i < |s.pushed| :: s.pushed[i].Unstarted?)
       case Starting(next) =>
         !s.turnOpen && next <= |s.pushed| &&
         (forall i | 0 <= i < |s.pushed| :: s.pushed[i] == if i < next then Started else Unstarted)
       case Tools(_) =>
         !s.turnOpen &&
         (forall i | 0 <= i < |s.pushed| ::
            s.pushed[i].Started? || (s.pushed[i].Terminal? && s.tasks[i].Done? && s.tasks[i].result.Err?))
       case Reporting(at, _) =>
         !s.turnOpen && at <= |s.pushed| &&
         (forall i | 0 <= i < |s.pushed| :: s.pushed[i] == if i < at then Terminal else Started)
       case Top => !s.turnOpen && (forall i | 0 <= i < |s.pushed| :: s.pushed[i].Terminal?)
       case Announce => !s.turnOpen && s.pushed == []
       case _ => s.turnOpen && s.pushed == []
  }

  /** The starts in the trace are those of earlier turns and of the calls started in this one. */
  ghost predicate StartsInv(s: State) {
    && |s.pushed| == |s.calls|
    && (forall j | 0 <= j < |s.trace| && IsStart(s.trace[j]) ::
          || (exists n: nat :: n < s.turns && s.trace[j].turnId == Some(TurnId(n)))
          || (exists i :: CallStartedBy(s, i, s.trace[j])))
    && (forall i | 0 <= i < |s.calls| && !s.pushed[i].Unstarted? ::
          exists j :: 0 <= j < |s.trace| && IsStart(s.trace[j]) && CallStartedBy(s, i, s.trace[j]))
  }

  predicate CallStartedBy(s: State, i: int, e: Emission) {
    && 0 <= i < |s.calls| == |s.pushed| && !s.pushed[i].Unstarted?
    && e.turnId == Some(TurnId(s.turns)) && e.itemId == Some(s.calls[i].id)
  }

  predicate IdsDistinct(s: State) {
    |s.pushed| == |s.calls| &&
    forall i, j | 0 <= i < j < |s.calls| && !s.pushed[i].Unstarted? && !s.pushed[j].Unstarted? ::
      s.calls[i].id != s.calls[j].id
  }

  ghost predicate TraceInv(r: Recorder, s: State) {
    var projected := Project(Empty, RecordsOf(r, s.trace));
    && (projected.Ok? <==> DistinctStarts(s.trace))
    && (projected.Ok? ==> IdsDistinct(s))
    && (projected.Ok? ==> Match(r, projected.value.0, TurnIds(OpenTurns(s)), TurnId(s.turns), OpenItems(s)))
  }

  ghost predicate FramesInv(r: Recorder, s: State) {
    PushedInv(s) && StartsInv(s) && TraceInv(r, s)
  }

  // Pushing one frame.

  lemma TraceQuiet(r: Recorder, s: State, after: State)
    requires TraceInv(r, s) && after.trace == s.trace
    requires OpenTurns(after) == OpenTurns(s) && (IdsDistinct(s) ==> IdsDistinct(after))
    requires after.turns == s.turns || OpenItems(s) == {}
    requires OpenItems(after) == OpenItems(s)
    ensures TraceInv(r, after)
  {
  }

  /** A frame that starts no call, fits, and changes the open slots as the step says. */
  lemma TracePush(r: Recorder, s: State, after: State, e: Emission)
    requires TraceInv(r, s) && after.trace == s.trace + [e] && !IsStart(e)
    requires Fits(e, TurnIds(OpenTurns(s)), TurnId(s.turns), OpenItems(s))
    requires TurnIds(OpenTurns(after)) == OpenAfter(e, TurnIds(OpenTurns(s)))
    requires IdsDistinct(s) ==> OpenItems(after) == ItemsAfter(e, OpenItems(s)) && IdsDistinct(after)
    requires after.turns == s.turns
    ensures TraceInv(r, after)
  {
    RecordsSnoc(r, s.trace, e);
    DistinctSnoc(s.trace, e);
    ProjectSnoc(Empty, RecordsOf(r, s.trace), RecordOf(r, |s.trace|, e));
    if Accepted(RecordsOf(r, s.trace)) {
      var m := Project(Empty, RecordsOf(r, s.trace)).value.0;
      ApplyFits(r, m, |s.trace|, e, TurnIds(OpenTurns(s)), TurnId(s.turns), OpenItems(s));
    }
  }

  /** Starting a call is accepted exactly when its id is new in this turn. */
  lemma TraceStart(r: Recorder, s: State, after: State, e: Emission, i: nat)
    requires TraceInv(r, s) && StartsInv(s) && PushedInv(s)
    requires s.phase == Starting(i) && i < |s.calls|
    requires IsStart(e) && e.turnId == Some(TurnId(s.turns)) && e.itemId == Some(s.calls[i].id)
    requires after == s.(phase := Starting(i + 1), pushed := s.pushed[i := Started], trace := s.trace + [e])
    ensures TraceInv(r, after)
  {
    RecordsSnoc(r, s.trace, e);
    DistinctSnoc(s.trace, e);
    ProjectSnoc(Empty, RecordsOf(r, s.trace), RecordOf(r, |s.trace|, e));
    NewStart(s, e, i);
    OpenItemsStarting(s, after, i);
    if Accepted(RecordsOf(r, s.trace)) {
      var m := Project(Empty, RecordsOf(r, s.trace)).value.0;
      if s.calls[i].id in OpenItems(s) {
        RestartRefused(r, m, |s.trace|, e, TurnId(s.turns), OpenItems(s));
      } else {
        ApplyFits(r, m, |s.trace|, e, TurnIds(OpenTurns(s)), TurnId(s.turns), OpenItems(s));
        StillDistinct(s, after, i);
      }
    }
  }

  lemma OpenItemsStarting(s: State, after: State, i: nat)
    requires PushedInv(s) && s.phase == Starting(i) && i < |s.calls|
    requires after.calls == s.calls && after.pushed == s.pushed[i := Started]
    ensures OpenItems(after) == OpenItems(s) + {s.calls[i].id}
  {
    forall x ensures x in OpenItems(after) <==> x in OpenItems(s) + {s.calls[i].id} {
      if x in OpenItems(s) {
        var j :| 0 <= j < |s.pushed| && s.pushed[j].Started? && s.calls[j].id == x;
        assert after.pushed[j].Started?;
      }
      if x == s.calls[i].id { assert after.pushed[i].Started?; }
      if x in OpenItems(after) {
        var j :| 0 <= j < |after.pushed| && after.pushed[j].Started? && after.calls[j].id == x;
        if j != i { assert s.pushed[j].Started?; }
      }
    }
  }

  lemma StillDistinct(s: State, after: State, i: nat)
    requires PushedInv(s) && IdsDistinct(s) && s.phase == Starting(i) && i < |s.calls|
    requires s.calls[i].id !in OpenItems(s)
    requires after.calls == s.calls && after.pushed == s.pushed[i := Started]
    ensures IdsDistinct(after)
  {
    forall j | 0 <= j < i ensures s.calls[j].id != s.calls[i].id {
      assert s.pushed[j].Started?;
      assert s.calls[j].id in OpenItems(s);
    }
  }

  /** The trace already starts this item exactly when the call's id is open. */
  lemma NewStart(s: State, e: Emission, i: nat)
    requires StartsInv(s) && PushedInv(s) && s.phase == Starting(i) && i < |s.calls|
    requires IsStart(e) && e.turnId == Some(TurnId(s.turns)) && e.itemId == Some(s.calls[i].id)
    ensures (forall j | 0 <= j < |s.trace| && IsStart(s.trace[j]) :: ItemOf(s.trace[j]) != ItemOf(e)) <==>
            s.calls[i].id !in OpenItems(s)
  {
    if s.calls[i].id in OpenItems(s) {
      var k :| 0 <= k < |s.pushed| && s.pushed[k].Started? && s.calls[k].id == s.calls[i].id;
      var j :| 0 <= j < |s.trace| && IsStart(s.trace[j]) && CallStartedBy(s, k, s.trace[j]);
      assert ItemOf(s.trace[j]) == ItemOf(e);
    } else {
      forall j | 0 <= j < |s.trace| && IsStart(s.trace[j]) ensures ItemOf(s.trace[j]) != ItemOf(e) {
        if k :| CallStartedBy(s, k, s.trace[j]) {
          assert s.pushed[k].Started? && s.calls[k].id in OpenItems(s);
        } else {
          var n: nat :| n < s.turns && s.trace[j].turnId == Some(TurnId(n));
          if TurnId(n) == TurnId(s.turns) { TurnIdInjective(n, s.turns); }
        }
      }
    }
  }

  // Steps.

  lemma StartsQuiet(s: State, after: State)
    requires StartsInv(s) && after.turns == s.turns && after.calls == s.calls && |after.pushed| == |s.pushed|
    requires forall i | 0 <= i < |s.pushed| :: after.pushed[i].Unstarted? <==> s.pushed[i].Unstarted?
    requires after.trace == s.trace || (exists e :: !IsStart(e) && after.trace == s.trace + [e])
    ensures StartsInv(after)
  {
    hide TurnId;
    forall j | 0 <= j < |after.trace| && IsStart(after.trace[j])
      ensures (exists n: nat :: n < after.turns && after.trace[j].turnId == Some(TurnId(n)))
           || (exists i :: CallStartedBy(after, i, after.trace[j]))
    {
      assert after.trace[j] == s.trace[j];
      if i :| CallStartedBy(s, i, s.trace[j]) { assert CallStartedBy(after, i, after.trace[j]); }
    }
    forall i | 0 <= i < |after.calls| && !after.pushed[i].Unstarted?
      ensures exists j :: 0 <= j < |after.trace| && IsStart(after.trace[j]) && CallStartedBy(after, i, after.trace[j])
    {
      var j :| 0 <= j < |s.trace| && IsStart(s.trace[j]) && CallStartedBy(s, i, s.trace[j]);
      assert after.trace[j] == s.trace[j] && CallStartedBy(after, i, after.trace[j]);
    }
  }

  /** Steps that push nothing and leave the current turn's bookkeeping alone. */
  lemma FramesQuiet(r: Recorder, s: State, after: State)
    requires FramesInv(r, s) && PushedInv(after)
    requires after.trace == s.trace && after.turns == s.turns
    requires after.calls == s.calls && after.pushed == s.pushed
    requires OpenTurns(after) == OpenTurns(s)
    ensures FramesInv(r, after)
  {
    hide TraceInv, StartsInv, PushedInv;
    StartsQuiet(s, after);
    TraceQuiet(r, s, after);
  }

  /** Everything started so far belongs to an earlier turn once the next turn begins. */
  lemma StartsNextTurn(s: State, after: State)
    requires StartsInv(s) && after.turns == s.turns + 1 && after.trace == s.trace
    requires after.calls == [] && after.pushed == []
    ensures StartsInv(after)
  {
    forall j | 0 <= j < |after.trace| && IsStart(after.trace[j])
      ensures exists n: nat :: n < after.turns && after.trace[j].turnId == Some(TurnId(n))
    {
      if i :| CallStartedBy(s, i, s.trace[j]) { assert s.turns < after.turns; }
    }
  }

  lemma FramesTop(r: Recorder, s: State, cancelled: bool, fetched: seq<S.Message>)
    requires FramesInv(r, s) && s.phase.Top?
    ensures FramesInv(r, StepTop(s, cancelled, fetched))
  {
    hide TraceInv, StartsInv;
    var after := StepTop(s, cancelled, fetched);
    if after.phase.Announce? {
      assert OpenItems(s) == {} && OpenItems(after) == {};
      TraceQuiet(r, s, after);
      StartsNextTurn(s, after);
    } else {
      FramesQuiet(r, s, after);
    }
  }

  lemma FramesAnnounce(cfg: Config, r: Recorder, s: State)
    requires FramesInv(r, s) && s.phase.Announce?
    ensures FramesInv(r, StepAdvance(cfg, s).value)
  {
    hide TraceInv, StartsInv;
    var after := StepAdvance(cfg, s).value;
    var e := LoopFrame(s.turns, None, None, AssistantTurnStarted);
    TurnIdsMember(OpenTurns(s), s.turns);
    assert TurnIds(OpenTurns(after)) == TurnIds(OpenTurns(s)) + {TurnId(s.turns)};
    StartsQuiet(s, after);
    TracePush(r, s, after, e);
  }

  lemma FramesRecorded(cfg: Config, r: Recorder, s: State)
    requires FramesInv(r, s) && s.phase.Recorded?
    ensures FramesInv(r, StepAdvance(cfg, s).value)
  {
    hide TraceInv, StartsInv;
    var after := StepAdvance(cfg, s).value;
    var e := LoopFrame(s.turns, None, None, AssistantTurnCompleted);
    TurnIdsMember(OpenTurns(s), s.turns);
    TurnIdsMember(OpenTurns(after), s.turns);
    assert TurnIds(OpenTurns(s)) == TurnIds(OpenTurns(after)) + {TurnId(s.turns)};
    StartsQuiet(s, after);
    TracePush(r, s, after, e);
  }

  lemma FramesYield(r: Recorder, s: State, e: C.StreamEvent)
    requires FramesInv(r, s) && s.phase.Streaming?
    ensures FramesInv(r, StepYield(s, e))
  {
    hide TraceInv, StartsInv;
    var after := StepYield(s, e);
    if e.TextDelta? {
      var frame := C.DeltaFrame(TurnId(s.turns), s.phase.gathering.fragment, e.delta);
      TurnIdsMember(OpenTurns(s), s.turns);
      StartsQuiet(s, after);
      TracePush(r, s, after, frame);
    } else {
      FramesQuiet(r, s, after);
    }
  }

  lemma FramesStreamFails(r: Recorder, s: State, contextLimit: bool)
    requires FramesInv(r, s) && (s.phase.Opening? || s.phase.Streaming?)
    requires s.turns >= 1
    ensures FramesInv(r, StepStreamFails(s, contextLimit))
  {
    hide TraceInv, StartsInv;
    FramesQuiet(r, s, StepStreamFails(s, contextLimit));
  }

  lemma FramesGathered(cfg: Config, r: Recorder, s: State)
    requires FramesInv(r, s) && s.phase.Gathered?
    ensures FramesInv(r, StepGathered(cfg, s))
  {
    hide TraceInv;
    var after := StepGathered(cfg, s);
    if after.phase.Recorded? {
      assert OpenItems(s) == {} && OpenItems(after) == {};
      TraceQuiet(r, s, after);
    } else {
      FramesQuiet(r, s, after);
    }
  }

  lemma FramesStarting(cfg: Config, r: Recorder, s: State)
    requires FramesInv(r, s) && ToolsInv(cfg, s) && s.phase.Starting?
    ensures StepStarting(cfg, s).Some? && FramesInv(r, StepStarting(cfg, s).value)
  {
    hide TraceInv, StartsInv;
    var after := StepStarting(cfg, s).value;
    var i := s.phase.next;
    if i < |s.calls| && !IsBlank(s.calls[i].id) {
      var e := LoopFrame(s.turns, Some(s.calls[i].id), None,
                         ToolCallStarted(s.calls[i].name, cfg.render(s.calls[i].input)));
      TraceStart(r, s, after, e, i);
      StartsStarting(s, after, e, i);
    } else {
      FramesQuiet(r, s, after);
    }
  }

  lemma StartsStarting(s: State, after: State, e: Emission, i: nat)
    requires StartsInv(s) && PushedInv(s) && s.phase == Starting(i) && i < |s.calls|
    requires IsStart(e) && e.turnId == Some(TurnId(s.turns)) && e.itemId == Some(s.calls[i].id)
    requires after == s.(phase := Starting(i + 1), pushed := s.pushed[i := Started], trace := s.trace + [e])
    ensures StartsInv(after)
  {
    forall j | 0 <= j < |after.trace| && IsStart(after.trace[j])
      ensures (exists n: nat :: n < after.turns && after.trace[j].turnId == Some(TurnId(n)))
           || (exists k :: CallStartedBy(after, k, after.trace[j]))
    {
      if j == |s.trace| {
        assert CallStartedBy(after, i, after.trace[j]);
      } else {
        assert after.trace[j] == s.trace[j];
        if k :| CallStartedBy(s, k, s.trace[j]) { assert CallStartedBy(after, k, after.trace[j]); }
      }
    }
    forall k | 0 <= k < |after.calls| && !after.pushed[k].Unstarted?
      ensures exists j :: 0 <= j < |after.trace| && IsStart(after.trace[j]) && CallStartedBy(after, k, after.trace[j])
    {
      if k == i {
        assert CallStartedBy(after, i, after.trace[|s.trace|]);
      } else {
        var j :| 0 <= j < |s.trace| && IsStart(s.trace[j]) && CallStartedBy(s, k, s.trace[j]);
        assert after.trace[j] == s.trace[j] && CallStartedBy(after, k, after.trace[j]);
      }
    }
  }

  /** The scheduler only ever begins idle tasks, and reports once every call has succeeded. */
  lemma SchedulerFrame(cfg: Config, s: State)
    requires ToolsInv(cfg, s) && s.phase.Tools? && StepTools(cfg, s).Some?
    ensures var after := StepTools(cfg, s).value;
            && |after.tasks| == |s.tasks|
            && (forall i | 0 <= i < |s.tasks| ::
                  after.tasks[i] == s.tasks[i] || (s.tasks[i].Idle? && after.tasks[i].Begun?))
            && (after.phase.Reporting? ==> after.tasks == s.tasks && Finished(s, |s.calls|))
  {
    hide Active, PermitsTaken, Overlaps, MayOverlap, Batch, BegunIn, IsActive;
  }

  lemma PushedTools(cfg: Config, s: State, after: State)
    requires PushedInv(s) && s.phase.Tools?
    requires after == s.(phase := after.phase, tasks := after.tasks, results := after.results)
    requires |after.tasks| == |s.tasks|
    requires forall i | 0 <= i < |s.tasks| ::
               after.tasks[i] == s.tasks[i] || (s.tasks[i].Idle? && after.tasks[i].Begun?)
    requires after.phase.Tools? || after.phase == Ended(Errored) || after.phase == Reporting(0, AppendResult)
    requires after.phase.Reporting? ==> after.tasks == s.tasks && Finished(s, |s.calls|)
    ensures PushedInv(after)
  {
  }

  lemma FramesTools(cfg: Config, r: Recorder, s: State)
    requires FramesInv(r, s) && ToolsInv(cfg, s) && s.phase.Tools? && StepTools(cfg, s).Some?
    ensures FramesInv(r, StepTools(cfg, s).value)
  {
    ToolsFrame(cfg, s);
    SchedulerFrame(cfg, s);
    PushedTools(cfg, s, StepTools(cfg, s).value);
    hide StepTools, PushedInv, TraceInv, StartsInv;
    FramesQuiet(r, s, StepTools(cfg, s).value);
  }

  /** Closing a call removes its id from the open ones, when no two open calls share an id. */
  lemma OpenItemsClosing(s: State, after: State, i: nat)
    requires |s.pushed| == |s.calls| && i < |s.calls| && s.pushed[i].Started? && IdsDistinct(s)
    requires after.calls == s.calls && after.pushed == s.pushed[i := Terminal]
    ensures OpenItems(after) == OpenItems(s) - {s.calls[i].id}
    ensures IdsDistinct(after)
  {
    forall x ensures x in OpenItems(after) <==> x in OpenItems(s) - {s.calls[i].id} {
      if x in OpenItems(after) {
        var j :| 0 <= j < |after.pushed| && after.pushed[j].Started? && after.calls[j].id == x;
        assert s.pushed[j].Started? && j != i;
      }
      if x in OpenItems(s) - {s.calls[i].id} {
        var j :| 0 <= j < |s.pushed| && s.pushed[j].Started? && s.calls[j].id == x;
        assert after.pushed[j].Started?;
      }
    }
  }

  /** A terminal frame for an open call of the current turn. */
  lemma FramesClose(r: Recorder, s: State, after: State, i: nat, e: Emission)
    requires FramesInv(r, s) && PushedInv(after) && i < |s.calls| && s.pushed[i].Started?
    requires e.frame.ToolCallCompleted? && e.turnId == Some(TurnId(s.turns)) && e.itemId == Some(s.calls[i].id)
    requires after.trace == s.trace + [e] && after.turns == s.turns && after.calls == s.calls
    requires after.pushed == s.pushed[i := Terminal] && OpenTurns(after) == OpenTurns(s)
    ensures FramesInv(r, after)
  {
    hide TraceInv, StartsInv;
    if IdsDistinct(s) { OpenItemsClosing(s, after, i); }
    assert s.calls[i].id in OpenItems(s);
    StartsQuiet(s, after);
    TracePush(r, s, after, e);
  }

  /** Announcing a wait for approval opens and closes nothing. */
  lemma FramesPending(r: Recorder, s: State, after: State, e: Emission)
    requires FramesInv(r, s) && PushedInv(after) && e.frame.PendingStateChanged?
    requires after.trace == s.trace + [e] && after.turns == s.turns && after.calls == s.calls
    requires after.pushed == s.pushed && OpenTurns(after) == OpenTurns(s)
    ensures FramesInv(r, after)
  {
    hide TraceInv, StartsInv, PushedInv;
    StartsQuiet(s, after);
    TracePush(r, s, after, e);
  }

  lemma PushedReporting(cfg: Config, s: State)
    requires PushedInv(s) && ToolsInv(cfg, s) && s.phase.Reporting? && StepReporting(s).Some?
    ensures PushedInv(StepReporting(s).value)
  {
    AllFinished(s);
    assert forall i | 0 <= i < |s.tasks| :: !IsActive(s.tasks[i]);
  }

  lemma FramesReporting(cfg: Config, r: Recorder, s: State)
    requires FramesInv(r, s) && ToolsInv(cfg, s) && s.phase.Reporting? && StepReporting(s).Some?
    ensures FramesInv(r, StepReporting(s).value)
  {
    hide TraceInv, StartsInv;
    PushedReporting(cfg, s);
    var after := StepReporting(s).value;
    var i := s.phase.at;
    if i < |s.results| && s.phase.stage.PushCompletion? {
      assert s.results[i].callId == s.calls[i].id;
      FramesClose(r, s, after, i,
                  LoopFrame(s.turns, Some(s.results[i].callId), None, ToolCallCompleted(s.results[i].outcome)));
    } else if i < |s.results| && s.phase.stage.PushProgress? {
      assert s.results[i].callId == s.calls[i].id;
      assert s.pushed[i].Started? && s.calls[i].id in OpenItems(s);
      StartsQuiet(s, after);
      TracePush(r, s, after,
                LoopFrame(s.turns, Some(s.results[i].callId), Some(0), ToolCallProgressed(s.results[i].content)));
    } else {
      FramesQuiet(r, s, after);
    }
  }

  /** Tasks only run in the tool phase, or detached after a failed run. */
  lemma ActiveOnlyInTools(cfg: Config, s: State, i: nat)
    requires ToolsInv(cfg, s) && PushedInv(s) && i < |s.tasks| && IsActive(s.tasks[i])
    ensures s.phase.Tools? || s.phase == Ended(Errored)
    ensures s.pushed[i].Started?
  {
    assert i in Active(s.tasks);
  }

  lemma PushedTask(cfg: Config, s: State, i: nat, act: TaskAct)
    requires PushedInv(s) && ToolsInv(cfg, s) && i < |s.tasks| && StepTask(cfg, s, i, act).Some?
    ensures PushedInv(StepTask(cfg, s, i, act).value)
  {
    TaskFrame(cfg, s, i, act);
    TaskPushes(cfg, s, i, act);
    ActiveOnlyInTools(cfg, s, i);
    hide StepTask, ToolsInv;
  }

  lemma FramesTask(cfg: Config, r: Recorder, s: State, i: nat, act: TaskAct)
    requires FramesInv(r, s) && PushedInv(s) && ToolsInv(cfg, s)
    requires i < |s.tasks| && StepTask(cfg, s, i, act).Some?
    ensures FramesInv(r, StepTask(cfg, s, i, act).value)
  {
    hide FramesInv;
    PushedTask(cfg, s, i, act);
    TaskFrame(cfg, s, i, act);
    TaskPushes(cfg, s, i, act);
    ActiveOnlyInTools(cfg, s, i);
    hide PushedInv, ToolsInv, StepTask;
    var after := StepTask(cfg, s, i, act).value;
    if act.ApprovalRefuses? {
      FramesClose(r, s, after, i,
                  LoopFrame(s.turns, Some(s.calls[i].id), None, ToolCallCompleted(ToolOutcome.Cancelled)));
    } else if act.AsksApproval? {
      FramesPending(r, s, after, Emission(None, Some(s.calls[i].id), None, PendingStateChanged(WaitingForApproval)));
    } else {
      FramesQuiet(r, s, after);
    }
  }

  lemma FramesSettled(r: Recorder, s: State)
    requires FramesInv(r, s) && s.phase.Settled? && StepSettled(s).Some?
    ensures FramesInv(r, StepSettled(s).value)
  {
    hide TraceInv, StartsInv;
    FramesQuiet(r, s, StepSettled(s).value);
  }

  lemma FramesFollowUp(r: Recorder, s: State, fetched: seq<S.Message>)
    requires FramesInv(r, s) && s.phase.Settled? && StepFollowUp(s, fetched).Some?
    ensures FramesInv(r, StepFollowUp(s, fetched).value)
  {
    hide TraceInv, StartsInv;
    FramesQuiet(r, s, StepFollowUp(s, fetched).value);
  }

  lemma FramesRepair(r: Recorder, s: State)
    requires FramesInv(r, s) && s.phase.Repair?
    ensures FramesInv(r, StepRepair(s))
  {
    hide TraceInv, StartsInv;
    FramesQuiet(r, s, StepRepair(s));
  }

  lemma FramesAdvance(cfg: Config, r: Recorder, s: State)
    requires FramesInv(r, s) && ToolsInv(cfg, s) && StepAdvance(cfg, s).Some?
    ensures FramesInv(r, StepAdvance(cfg, s).value)
  {
    hide FramesInv, ToolsInv, StepRepair, StepGathered, StepSettled, StepStarting, StepTools, StepReporting;
    match s.phase {
      case Announce => FramesAnnounce(cfg, r, s);
      case Repair => FramesRepair(r, s);
      case Gathered(_) => FramesGathered(cfg, r, s);
      case Recorded(_) => FramesRecorded(cfg, r, s);
      case Settled(_) => FramesSettled(r, s);
      case Starting(_) => FramesStarting(cfg, r, s);
      case Tools(_) => FramesTools(cfg, r, s);
      case Reporting(_, _) => FramesReporting(cfg, r, s);
      case _ =>
    }
  }

  /** Steps of the remaining kinds: the stream opens or closes, or the run is aborted. */
  lemma FramesOther(r: Recorder, s: State, a: Action, cfg: Config)
    requires FramesInv(r, s) && Step(cfg, s, a).Some?
    requires a.StreamOpens? || a.StreamCloses? || a.Abort?
    ensures FramesInv(r, Step(cfg, s, a).value)
  {
    hide TraceInv, StartsInv;
    FramesQuiet(r, s, Step(cfg, s, a).value);
  }

  lemma PushedOf(r: Recorder, s: State)
    requires FramesInv(r, s)
    ensures PushedInv(s)
  {
  }

  lemma FramesStep(cfg: Config, r: Recorder, s: State, a: Action)
    requires FramesInv(r, s) && ToolsInv(cfg, s) && Step(cfg, s, a).Some?
    requires s.phase.Opening? || s.phase.Streaming? ==> s.turns >= 1
    ensures FramesInv(r, Step(cfg, s, a).value)
  {
    hide FramesInv, ToolsInv, StepTop, StepAdvance, StepYield, StepStreamFails, StepFollowUp, StepTask;
    match a {
      case Loop(cancelled, fetched) => FramesTop(r, s, cancelled, fetched);
      case Advance => FramesAdvance(cfg, r, s);
      case Yield(e) => FramesYield(r, s, e);
      case StreamFails(contextLimit) => FramesStreamFails(r, s, contextLimit);
      case FollowUp(fetched) => FramesFollowUp(r, s, fetched);
      case TaskStep(i, act) =>
        PushedOf(r, s);
        FramesTask(cfg, r, s, i, act);
      case _ => FramesOther(r, s, a, cfg);
    }
  }

  lemma {:induction false} RunKeepsFrames(cfg: Config, r: Recorder, initial: State, actions: seq<Action>)
    requires Initial(initial) && Run(cfg, initial, actions).Some?
    ensures FramesInv(r, Run(cfg, initial, actions).value)
  {
    if actions == [] {
      assert DistinctStarts([]);
      assert OpenTurns(initial) == {} && OpenItems(initial) == {};
    } else {
      var front := actions[..|actions| - 1];
      RunKeepsFrames(cfg, r, initial, front);
      RunKeepsTools(cfg, initial, front);
      RunKeepsBounds(cfg, initial, front);
      FramesStep(cfg, r, Run(cfg, initial, front).value, actions[|actions| - 1]);
    }
  }

  /**
   Protocol conformance: the frames of a run, at any point of it and in any interleaving of the loop
   with its tool tasks, are accepted by the projection if and only if no tool call id is started twice
   in the same turn.
   */
  lemma {:induction false} FramesConform(cfg: Config, r: Recorder, initial: State, s: State)
    requires Reachable(cfg, initial, s)
    ensures Accepted(RecordsOf(r, s.trace)) <==> DistinctStarts(s.trace)
  {
    var actions :| Run(cfg, initial, actions) == Some(s);
    RunKeepsFrames(cfg, r, initial, actions);
  }

  /** When a run ends through `complete`, only the turns abandoned to compaction are still in flight. */
  lemma CompletedRunsLeaveOnlyAbandonedTurns(cfg: Config, r: Recorder, initial: State, s: State)
    requires Reachable(cfg, initial, s) && DistinctStarts(s.trace)
    requires s.phase.Ended? && s.phase.end.Succeeded?
    ensures Accepted(RecordsOf(r, s.trace))
    ensures var m := Project(Empty, RecordsOf(r, s.trace)).value.0;
            && m.tools == map[]
            && (forall k :: k in m.turns <==>
                  exists n :: n in s.abandoned && k == TurnKey(r.sessionId, r.runId, Some(TurnId(n))))
  {
    var actions :| Run(cfg, initial, actions) == Some(s);
    RunKeepsFrames(cfg, r, initial, actions);
    hide Run, Reachable, Accepted, RecordsOf, DistinctStarts, StartsInv, IdsDistinct, Project;
    var m := Project(Empty, RecordsOf(r, s.trace)).value.0;
    CompletedIsClosed(s);
    OnlyAbandonedMatch(r, m, s);
  }

  lemma CompletedIsClosed(s: State)
    requires PushedInv(s) && s.phase.Ended? && s.phase.end.Succeeded?
    ensures OpenItems(s) == {} && OpenTurns(s) == s.abandoned
  {
  }

  lemma OnlyAbandonedMatch(r: Recorder, m: InFlight, s: State)
    requires Match(r, m, TurnIds(s.abandoned), TurnId(s.turns), {})
    ensures m.tools == map[]
    ensures forall k :: k in m.turns <==>
              exists n :: n in s.abandoned && k == TurnKey(r.sessionId, r.runId, Some(TurnId(n)))
  {
    hide TurnId;
    assert forall k :: k !in m.tools;
    forall k
      ensures k in m.turns <==>
              exists n :: n in s.abandoned && k == TurnKey(r.sessionId, r.runId, Some(TurnId(n)))
    {
      if k in m.turns {
        var n :| n in s.abandoned && TurnId(n) == k.turnId.value;
        assert k == TurnKey(r.sessionId, r.runId, Some(TurnId(n)));
      }
    }
  }

  // Many runs in one store.

  function StreamOnly(log: seq<EventRecord>): seq<EventRecord> {
    Filter((rec: EventRecord) => rec.payload.AgentStream?, log)
  }

  /** Records of other kinds never matter to the projection. */
  lemma {:induction false} StreamOnlyProjects(log: seq<EventRecord>)
    ensures Project(Empty, StreamOnly(log)) == Project(Empty, log)
  {
    if log != [] {
      var front, last := log[..|log| - 1], log[|log| - 1];
      StreamOnlyProjects(front);
      if last.payload.AgentStream? {
        ProjectSnoc(Empty, StreamOnly(front), last);
      } else {
        assert StreamOnly(log) == StreamOnly(front);
        if Accepted(front) {
          var rows := Project(Empty, front).value.1;
          assert rows + RowsOf(None) == rows;
        }
      }
    }
  }

  /** The stream records of one run are what some run of the loop pushed, with no id reused in a turn. */
  ghost predicate FromLoop(session: string, run: string, records: seq<EventRecord>) {
    exists cfg, r: Recorder, initial, s ::
      && Reachable(cfg, initial, s) && DistinctStarts(s.trace)
      && r.sessionId == session && r.runId == run && records == RecordsOf(r, s.trace)
  }

  /** A store that records any number of concurrent runs, interleaved in any way, never refuses a frame. */
  lemma ConcurrentRunsConform(log: seq<EventRecord>)
    requires forall session, run :: FromLoop(session, run, StreamOnly(PartOf(Part(session, Some(run)), log)))
    ensures Accepted(log)
  {
    forall session, run ensures Accepted(PartOf(Part(session, Some(run)), log)) {
      var part := PartOf(Part(session, Some(run)), log);
      assert FromLoop(session, run, StreamOnly(part));
      var cfg, r: Recorder, initial, s :|
        && Reachable(cfg, initial, s) && DistinctStarts(s.trace)
        && r.sessionId == session && r.runId == run && StreamOnly(part) == RecordsOf(r, s.trace);
      FramesConform(cfg, r, initial, s);
      StreamOnlyProjects(part);
    }
    AcceptedRunByRun(log);
  }
}
