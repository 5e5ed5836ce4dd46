/**
 Assembling one assistant turn from a model stream
 (`collect_turn`, `finalize_tool_calls` of crates/taugentic-agent/src/turn_loop.rs).
 */
module Collector {
  import opened Prelude
  import opened Wire

  datatype StopReason = EndTurn | ToolCalls | MaxTokens | Unknown(detail: string)

  datatype StreamEvent =
    | TextDelta(delta: string)
    | CallStarted(id: string, index: nat, name: string)
    | InputDelta(id: string, index: nat, delta: string)
    | CallCompleted(id: string, index: nat)
    | BatchCompleted
    | TokenUsage
    | TurnCompleted(reason: StopReason)

  datatype Partial = Partial(id: string, name: string, input: string)

  datatype Collected = Collected(text: string, calls: seq<Partial>, stop: StopReason)

  /** The local variables of the collecting loop. */
  datatype Gathering = Gathering(text: string, partials: map<nat, Partial>, stop: StopReason, fragment: nat)

  const Start: Gathering := Gathering("", map[], EndTurn, 0)

  function Absorb(g: Gathering, e: StreamEvent): Gathering {
    match e
    case TextDelta(delta) =>
      g.(text := g.text + delta, fragment := if g.fragment < U64_MAX then g.fragment + 1 else g.fragment)
    case CallStarted(id, index, name) => g.(partials := g.partials[index := Partial(id, name, "")])
    case InputDelta(id, index, delta) =>
      var entry := if index in g.partials then g.partials[index] else Partial(id, "", "");
      g.(partials := g.partials[index := entry.(input := entry.input + delta)])
    case CallCompleted(_, _) => g
    case BatchCompleted => g.(stop := ToolCalls)
    case TokenUsage => g
    case TurnCompleted(reason) => g.(stop := reason)
  }

  function AbsorbAll(events: seq<StreamEvent>): Gathering {
    if events == [] then Start else Absorb(AbsorbAll(events[..|events| - 1]), events[|events| - 1])
  }

  function Least(s: set<nat>): (least: nat)
    requires s != {}
    ensures least in s && forall x | x in s :: least <= x
  {
    LeastExists(s);
    var least :| least in s && forall x | x in s :: least <= x;
    least
  }

  lemma LeastExists(s: set<nat>)
    requires s != {}
    ensures exists least :: least in s && forall x | x in s :: least <= x
  {
    var x :| x in s;
    LeastBelow(s, x);
  }

  lemma {:induction false} LeastBelow(s: set<nat>, x: nat)
    requires x in s
    ensures exists least :: least in s && forall y | y in s :: least <= y
  {
    if y :| y in s && y < x {
      LeastBelow(s, y);
    } else {
      assert forall y | y in s :: x <= y;
    }
  }

  /** The elements of a finite set of naturals in ascending order, as a `BTreeMap` iterates its keys. */
  function Ascending(s: set<nat>): (r: seq<nat>)
    ensures forall x :: x in r <==> x in s
  {
    if s == {} then [] else [Least(s)] + Ascending(s - {Least(s)})
  }

  lemma {:induction false} AscendingIsSorted(s: set<nat>)
    ensures forall i, j | 0 <= i < j < |Ascending(s)| :: Ascending(s)[i] < Ascending(s)[j]
  {
    if s != {} {
      var least, rest := Least(s), Ascending(s - {Least(s)});
      AscendingIsSorted(s - {least});
      forall j | 0 <= j < |rest| ensures least < rest[j] {
        assert rest[j] in rest;
      }
    }
  }

  function Finish(g: Gathering): Collected {
    var order := Ascending(g.partials.Keys);
    Collected(g.text, seq(|order|, i requires 0 <= i < |order| => assert order[i] in order; g.partials[order[i]]), g.stop)
  }

  // The declarative reading of a stream.

  function IsText(e: StreamEvent): bool { e.TextDelta? }

  predicate ForIndex(k: nat, e: StreamEvent) {
    (e.CallStarted? || e.InputDelta?) && e.index == k
  }

  predicate IsStop(e: StreamEvent) { e.BatchCompleted? || e.TurnCompleted? }

  function TextsOf(events: seq<StreamEvent>): seq<StreamEvent> { Filter(IsText, events) }

  function IndexEvents(events: seq<StreamEvent>, k: nat): seq<StreamEvent> {
    Filter(e => ForIndex(k, e), events)
  }

  function StopsOf(events: seq<StreamEvent>): seq<StreamEvent> { Filter(IsStop, events) }

  function DeltasOf(events: seq<StreamEvent>): seq<string> {
    if events == [] then []
    else
      var last := events[|events| - 1];
      DeltasOf(events[..|events| - 1]) + if last.TextDelta? || last.InputDelta? then [last.delta] else []
  }

  function LastStart(events: seq<StreamEvent>): (r: Option<nat>)
    ensures r.Some? ==> r.value < |events| && events[r.value].CallStarted?
    ensures r.Some? ==> forall j | r.value < j < |events| :: !events[j].CallStarted?
    ensures r.None? ==> forall e | e in events :: !e.CallStarted?
  {
    if events == [] then None
    else if events[|events| - 1].CallStarted? then Some(|events| - 1)
    else LastStart(events[..|events| - 1])
  }

  /** The call that one index's own events describe: its input is every delta after its last start. */
  function CallFrom(events: seq<StreamEvent>): Partial
    requires events != [] && forall e | e in events :: e.CallStarted? || e.InputDelta?
  {
    match LastStart(events)
    case Some(j) => Partial(events[j].id, events[j].name, Join(DeltasOf(events[j + 1..])))
    case None => Partial(events[0].id, "", Join(DeltasOf(events)))
  }

  ghost function Indices(events: seq<StreamEvent>): set<nat> {
    set e | e in events && (e.CallStarted? || e.InputDelta?) :: e.index
  }

  function StopFrom(stops: seq<StreamEvent>): StopReason {
    if stops == [] then EndTurn
    else
      var last := stops[|stops| - 1];
      if last.TurnCompleted? then last.reason else ToolCalls
  }

  lemma {:induction false} IndexEventsShape(events: seq<StreamEvent>, k: nat)
    ensures forall e | e in IndexEvents(events, k) :: ForIndex(k, e)
    ensures IndexEvents(events, k) != [] <==> k in Indices(events)
  {
    forall e ensures e in IndexEvents(events, k) <==> e in events && ForIndex(k, e) {
      FilterMember(x => ForIndex(k, x), events, e);
    }
    if IndexEvents(events, k) != [] {
      assert IndexEvents(events, k)[0] in IndexEvents(events, k);
    }
  }

  /** What a turn must be, from the text deltas, each index's own events and the stop events alone. */
  ghost function Assemble(events: seq<StreamEvent>): Collected {
    var order := Ascending(Indices(events));
    Collected(
      Join(DeltasOf(TextsOf(events))),
      seq(|order|, i requires 0 <= i < |order| =>
        assert order[i] in order; IndexEventsShape(events, order[i]); CallFrom(IndexEvents(events, order[i]))),
      StopFrom(StopsOf(events)))
  }

  lemma DeltasOfSnoc(events: seq<StreamEvent>, e: StreamEvent)
    ensures DeltasOf(events + [e]) == DeltasOf(events) + if e.TextDelta? || e.InputDelta? then [e.delta] else []
  {
    assert (events + [e])[..|events|] == events;
  }

  lemma JoinSnoc(parts: seq<string>, s: string)
    ensures Join(parts + [s]) == Join(parts) + s
  {
    assert (parts + [s])[..|parts|] == parts;
  }

  /** One more event of the index: a start replaces the call, a delta extends it. */
  lemma CallFromSnoc(events: seq<StreamEvent>, e: StreamEvent)
    requires forall x | x in events :: x.CallStarted? || x.InputDelta?
    requires e.CallStarted? || e.InputDelta?
    ensures forall x | x in events + [e] :: x.CallStarted? || x.InputDelta?
    ensures CallFrom(events + [e]) ==
            if e.CallStarted? then Partial(e.id, e.name, "")
            else if events == [] then Partial(e.id, "", e.delta)
            else CallFrom(events).(input := CallFrom(events).input + e.delta)
  {
    var longer := events + [e];
    assert longer[..|events|] == events && longer[|events|] == e;
    if e.CallStarted? {
      assert longer[|events| + 1..] == [];
    } else if events == [] {
      assert longer == [e] && LastStart(longer).None?;
      DeltasOfSnoc([], e);
      assert [] + [e] == [e];
      JoinSnoc([], e.delta);
    } else {
      assert LastStart(longer) == LastStart(events);
      match LastStart(events) {
        case Some(j) =>
          assert longer[j + 1..] == events[j + 1..] + [e];
          DeltasOfSnoc(events[j + 1..], e);
          JoinSnoc(DeltasOf(events[j + 1..]), e.delta);
        case None =>
          DeltasOfSnoc(events, e);
          JoinSnoc(DeltasOf(events), e.delta);
      }
    }
  }

  /** The partial call held for one index is the one its own events describe. */
  ghost predicate HoldsIndex(g: Gathering, events: seq<StreamEvent>, k: nat) {
    IndexEventsShape(events, k);
    && (k in g.partials <==> IndexEvents(events, k) != [])
    && (k in g.partials ==> g.partials[k] == CallFrom(IndexEvents(events, k)))
  }

  /** What one event does to the partial call of one index. */
  ghost predicate PartialStep(before: map<nat, Partial>, after: map<nat, Partial>, e: StreamEvent, k: nat) {
    if !ForIndex(k, e) then (k in after <==> k in before) && (k in before ==> after[k] == before[k])
    else if e.CallStarted? then k in after && after[k] == Partial(e.id, e.name, "")
    else if k !in before then k in after && after[k] == Partial(e.id, "", e.delta)
    else k in after && after[k] == before[k].(input := before[k].input + e.delta)
  }

  lemma AbsorbPartial(g: Gathering, e: StreamEvent, k: nat)
    ensures PartialStep(g.partials, Absorb(g, e).partials, e, k)
  {
  }

  lemma AbsorbIndex(g: Gathering, after: Gathering, events: seq<StreamEvent>, e: StreamEvent, k: nat)
    requires HoldsIndex(g, events, k) && PartialStep(g.partials, after.partials, e, k)
    ensures HoldsIndex(after, events + [e], k)
  {
    IndexEventsShape(events, k);
    IndexEventsSnoc(events, e, k);
    if ForIndex(k, e) {
      CallFromSnoc(IndexEvents(events, k), e);
    } else {
      assert IndexEvents(events + [e], k) == IndexEvents(events, k);
    }
  }

  lemma IndexEventsSnoc(events: seq<StreamEvent>, e: StreamEvent, k: nat)
    ensures IndexEvents(events + [e], k) == IndexEvents(events, k) + if ForIndex(k, e) then [e] else []
  {
    FilterSnoc(x => ForIndex(k, x), events, e);
  }

  lemma {:induction false} AbsorbAllIndex(events: seq<StreamEvent>, k: nat)
    ensures HoldsIndex(AbsorbAll(events), events, k)
  {
    if events == [] {
      IndexEventsShape(events, k);
    } else {
      var front, last := events[..|events| - 1], events[|events| - 1];
      AbsorbAllIndex(front, k);
      AbsorbPartial(AbsorbAll(front), last, k);
      AbsorbIndex(AbsorbAll(front), AbsorbAll(events), front, last, k);
      assert events == front + [last];
    }
  }

  lemma {:induction false} AbsorbAllText(events: seq<StreamEvent>)
    ensures AbsorbAll(events).text == Join(DeltasOf(TextsOf(events)))
  {
    if events != [] {
      var front, last := events[..|events| - 1], events[|events| - 1];
      AbsorbAllText(front);
      if last.TextDelta? {
        DeltasOfSnoc(TextsOf(front), last);
        JoinSnoc(DeltasOf(TextsOf(front)), last.delta);
      } else {
        assert TextsOf(events) == TextsOf(front);
      }
    }
  }

  lemma {:induction false} AbsorbAllStop(events: seq<StreamEvent>)
    ensures AbsorbAll(events).stop == StopFrom(StopsOf(events))
  {
    if events != [] {
      var front, last := events[..|events| - 1], events[|events| - 1];
      AbsorbAllStop(front);
      if !IsStop(last) { assert StopsOf(events) == StopsOf(front); }
    }
  }

  /** The collecting loop computes the declarative reading. */
  lemma {:induction false} FinishIsAssemble(events: seq<StreamEvent>)
    ensures Finish(AbsorbAll(events)) == Assemble(events)
  {
    var g := AbsorbAll(events);
    AbsorbAllText(events);
    AbsorbAllStop(events);
    forall k ensures k in g.partials.Keys <==> k in Indices(events) {
      AbsorbAllIndex(events, k);
      IndexEventsShape(events, k);
    }
    assert g.partials.Keys == Indices(events);
    var order := Ascending(Indices(events));
    forall i | 0 <= i < |order|
      ensures order[i] in g.partials && Finish(g).calls[i] == Assemble(events).calls[i]
    {
      assert order[i] in order;
      AbsorbAllIndex(events, order[i]);
    }
    assert Finish(g).calls == Assemble(events).calls;
  }

  /**
   Stream assembly is interleaving-invariant: streams with the same text deltas, the same events for
   each index and the same stop events assemble to the same turn, however they are interleaved.
   */
  lemma AssemblyIgnoresInterleaving(a: seq<StreamEvent>, b: seq<StreamEvent>)
    requires TextsOf(a) == TextsOf(b)
    requires forall k :: IndexEvents(a, k) == IndexEvents(b, k)
    requires StopsOf(a) == StopsOf(b)
    ensures Finish(AbsorbAll(a)) == Finish(AbsorbAll(b))
  {
    FinishIsAssemble(a);
    FinishIsAssemble(b);
    forall k ensures k in Indices(a) <==> k in Indices(b) {
      IndexEventsShape(a, k);
      IndexEventsShape(b, k);
    }
    assert Indices(a) == Indices(b);
    assert Assemble(a).calls == Assemble(b).calls;
  }

  // The collecting loop itself.

  /** What the stream hands out next: an event, or the error that ends it. */
  datatype Item<+E> = Event(event: StreamEvent) | Broken(error: E)

  /** How many items the loop consumes: up to the first completion or error. */
  function ConsumedCount<E>(stream: seq<Item<E>>): (n: nat)
    ensures n <= |stream|
    ensures forall i | 0 <= i < n - 1 :: stream[i].Event? && !stream[i].event.TurnCompleted?
    ensures n < |stream| ==> n > 0 && (stream[n - 1].Broken? || stream[n - 1].event.TurnCompleted?)
  {
    if stream == [] then 0
    else if stream[0].Broken? || stream[0].event.TurnCompleted? then 1
    else 1 + ConsumedCount(stream[1..])
  }

  function EventsOf<E>(items: seq<Item<E>>): seq<StreamEvent>
    requires forall i | 0 <= i < |items| :: items[i].Event?
  {
    seq(|items|, i requires 0 <= i < |items| => items[i].event)
  }

  function DeltaFrame(turnId: string, fragment: nat, delta: string): Emission {
    Emission(Some(turnId), None, Some(fragment), AssistantMessageDelta(delta))
  }

  /** The frames pushed while collecting: one per text delta, numbered from zero. */
  function DeltaFrames(turnId: string, events: seq<StreamEvent>): seq<Emission> {
    if events == [] then []
    else
      var front, last := events[..|events| - 1], events[|events| - 1];
      DeltaFrames(turnId, front) +
      if last.TextDelta? then [DeltaFrame(turnId, AbsorbAll(front).fragment, last.delta)] else []
  }

  lemma {:induction false} FragmentsAreCounted(events: seq<StreamEvent>)
    ensures var count := |TextsOf(events)|; AbsorbAll(events).fragment == if count < U64_MAX then count else U64_MAX
  {
    if events != [] { FragmentsAreCounted(events[..|events| - 1]); }
  }

  /** The frames carry the text deltas, in order, and count up from zero as far as 64 bits go. */
  lemma {:induction false} FramesCarryTheText(turnId: string, events: seq<StreamEvent>)
    ensures |DeltaFrames(turnId, events)| == |TextsOf(events)|
    ensures forall i | 0 <= i < |TextsOf(events)| ::
              && TextsOf(events)[i].TextDelta?
              && DeltaFrames(turnId, events)[i] ==
                 Emission(Some(turnId), None, Some(if i < U64_MAX then i else U64_MAX),
                          AssistantMessageDelta(TextsOf(events)[i].delta))
  {
    if events != [] {
      FramesCarryTheText(turnId, events[..|events| - 1]);
      FragmentsAreCounted(events[..|events| - 1]);
    }
  }

  method CollectTurn<E>(stream: seq<Item<E>>, turnId: string)
    returns (r: Result<Collected, E>, frames: seq<Emission>)
    ensures var n := ConsumedCount(stream);
            if n > 0 && stream[n - 1].Broken? then
              r == Err(stream[n - 1].error) && frames == DeltaFrames(turnId, EventsOf(stream[..n - 1]))
            else
              && (forall i | 0 <= i < n :: stream[i].Event?)
              && r == Ok(Assemble(EventsOf(stream[..n])))
              && frames == DeltaFrames(turnId, EventsOf(stream[..n]))
  {
    var g := Start;
    frames := [];
    var i := 0;
    assert EventsOf(stream[..0]) == [] && AbsorbAll([]) == Start && DeltaFrames(turnId, []) == [];
    hide EventsOf, AbsorbAll, Absorb, DeltaFrames, DeltaFrame, Assemble, Finish, ConsumedCount;
    while i < |stream|
      invariant 0 <= i <= |stream|
      invariant forall j | 0 <= j < i :: stream[j].Event? && !stream[j].event.TurnCompleted?
      invariant g == AbsorbAll(EventsOf(stream[..i]))
      invariant frames == DeltaFrames(turnId, EventsOf(stream[..i]))
      decreases |stream| - i
    {
      if stream[i].Broken? {
        ConsumedAt(stream, i);
        return Err(stream[i].error), frames;
      }
      var e := stream[i].event;
      CollectStep(stream, i, turnId);
      if e.TextDelta? {
        frames := frames + [DeltaFrame(turnId, g.fragment, e.delta)];
      }
      g := Absorb(g, e);
      i := i + 1;
      if e.TurnCompleted? {
        ConsumedAt(stream, i - 1);
        FinishIsAssemble(EventsOf(stream[..i]));
        return Ok(Finish(g)), frames;
      }
    }
    ConsumedToEnd(stream);
    FinishIsAssemble(EventsOf(stream[..i]));
    r := Ok(Finish(g));
  }

  lemma CollectStep<E>(stream: seq<Item<E>>, i: nat, turnId: string)
    requires i < |stream| && forall j | 0 <= j <= i :: stream[j].Event?
    ensures var (before, after, e) := (EventsOf(stream[..i]), EventsOf(stream[..i + 1]), stream[i].event);
            && AbsorbAll(after) == Absorb(AbsorbAll(before), e)
            && DeltaFrames(turnId, after) ==
               if e.TextDelta? then DeltaFrames(turnId, before) + [DeltaFrame(turnId, AbsorbAll(before).fragment, e.delta)]
               else DeltaFrames(turnId, before)
  {
    EventsOfSnoc(stream, i);
    AbsorbAllSnoc(EventsOf(stream[..i]), stream[i].event);
    DeltaFramesSnoc(turnId, EventsOf(stream[..i]), stream[i].event);
    hide AbsorbAll, Absorb, DeltaFrames;
  }

  lemma EventsOfSnoc<E>(stream: seq<Item<E>>, i: nat)
    requires i < |stream| && forall j | 0 <= j <= i :: stream[j].Event?
    ensures EventsOf(stream[..i + 1]) == EventsOf(stream[..i]) + [stream[i].event]
  {
  }

  lemma AbsorbAllSnoc(events: seq<StreamEvent>, e: StreamEvent)
    ensures AbsorbAll(events + [e]) == Absorb(AbsorbAll(events), e)
  {
    assert (events + [e])[..|events|] == events;
  }

  lemma DeltaFramesSnoc(turnId: string, events: seq<StreamEvent>, e: StreamEvent)
    ensures DeltaFrames(turnId, events + [e]) == DeltaFrames(turnId, events) +
            if e.TextDelta? then [DeltaFrame(turnId, AbsorbAll(events).fragment, e.delta)] else []
  {
    assert (events + [e])[..|events|] == events;
  }

  lemma {:induction false} ConsumedAt<E>(stream: seq<Item<E>>, i: nat)
    requires i < |stream| && (stream[i].Broken? || stream[i].event.TurnCompleted?)
    requires forall j | 0 <= j < i :: stream[j].Event? && !stream[j].event.TurnCompleted?
    ensures ConsumedCount(stream) == i + 1
  {
    if i > 0 { ConsumedAt(stream[1..], i - 1); }
  }

  lemma {:induction false} ConsumedToEnd<E>(stream: seq<Item<E>>)
    requires forall j | 0 <= j < |stream| :: stream[j].Event? && !stream[j].event.TurnCompleted?
    ensures ConsumedCount(stream) == |stream|
  {
    if stream != [] { ConsumedToEnd(stream[1..]); }
  }

  // Deciding which collected calls are executed. `parses` stands for the JSON parser.

  predicate ParseFails(parses: string -> bool, call: Partial) {
    !IsBlank(call.input) && !parses(call.input)
  }

  predicate SurvivesTruncation(parses: string -> bool, call: Partial) {
    !IsBlank(call.input) && Trim(call.input) != "null" && parses(call.input)
  }

  /** `finalize_tool_calls`: a truncated turn drops unusable calls, any other turn must have none. */
  function FinalizeToolCalls(parses: string -> bool, turn: Collected): Result<seq<Partial>, string> {
    if turn.stop.MaxTokens? then Ok(Filter(call => SurvivesTruncation(parses, call), turn.calls))
    else if exists call | call in turn.calls :: ParseFails(parses, call) then Err("tool call input is invalid JSON")
    else Ok(turn.calls)
  }

  /**
   Every call that goes on to be executed has no input or input that parses. None is added, and none is dropped
   unless the turn was cut off: then exactly those are that have no input, whose input is null, or whose input does
   not parse. A turn that was not cut off fails iff some call's input does not parse.
   */
  lemma FinalizedCallsAreUsable(parses: string -> bool, turn: Collected)
    ensures match FinalizeToolCalls(parses, turn)
            case Ok(calls) =>
              && (forall call | call in calls :: IsBlank(call.input) || parses(call.input))
              && (forall call :: call in calls <==>
                    call in turn.calls &&
                    (turn.stop.MaxTokens? ==> !IsBlank(call.input) && Trim(call.input) != "null" && parses(call.input)))
              && (!turn.stop.MaxTokens? ==> calls == turn.calls)
            case Err(_) =>
              !turn.stop.MaxTokens? && exists call :: call in turn.calls && !IsBlank(call.input) && !parses(call.input)
  {
    hide IsBlank, Trim;
    if turn.stop.MaxTokens? {
      forall call {
        FilterMember(c => SurvivesTruncation(parses, c), turn.calls, call);
      }
    }
  }
}
