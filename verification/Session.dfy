/** The conversation history of a native run (crates/taugentic-agent/src/session.rs). */
module Session {
  import opened Prelude

  datatype Role = System | User | Assistant | Tool

  datatype CallRecord = CallRecord(id: string, name: string, input: string)

  datatype Message = Message(role: Role, content: string, toolCallId: Option<string>, toolCalls: seq<CallRecord>)

  const MARKER: string := "{\"marker\":\"missing_tool_output_repaired\",\"interrupted\":true}"

  function AssistantMessage(content: string, toolCalls: seq<CallRecord>): Message {
    Message(Assistant, content, None, toolCalls)
  }

  function ToolMessage(callId: string, content: string): Message {
    Message(Tool, content, Some(callId), [])
  }

  function IdsOf(calls: seq<CallRecord>): seq<string> {
    seq(|calls|, i requires 0 <= i < |calls| => calls[i].id)
  }

  /** The tool calls that a history makes, in order. */
  function CallIds(history: seq<Message>): seq<string> {
    if history == [] then []
    else CallIds(history[..|history| - 1]) + IdsOf(history[|history| - 1].toolCalls)
  }

  predicate HasResult(history: seq<Message>, id: string) {
    exists m | m in history :: m.toolCallId == Some(id)
  }

  /** Every tool call of the history has a result somewhere in it. */
  predicate Answered(history: seq<Message>) {
    forall id | id in CallIds(history) :: HasResult(history, id)
  }

  function Missing(history: seq<Message>): seq<string> {
    Filter(id => !HasResult(history, id), CallIds(history))
  }

  function Markers(ids: seq<string>): seq<Message> {
    seq(|ids|, i requires 0 <= i < |ids| => ToolMessage(ids[i], MARKER))
  }

  function Repaired(history: seq<Message>): seq<Message> {
    history + Markers(Missing(history))
  }

  function Compacted(history: seq<Message>): seq<Message> {
    if |history| > 2 then [history[0]] + history[2..] else history
  }

  /** Repair appends one marker per unanswered call, and afterwards every call has a result. */
  lemma RepairAnswersEveryCall(history: seq<Message>)
    ensures Answered(Repaired(history))
    ensures history <= Repaired(history)
    ensures Answered(history) <==> Repaired(history) == history
  {
    var missing := Missing(history);
    var markers := Markers(missing);
    MarkersMakeNoCalls(missing);
    CallIdsAppend(history, markers);
    forall id | id in CallIds(Repaired(history)) ensures HasResult(Repaired(history), id) {
      FilterMember(i => !HasResult(history, i), CallIds(history), id);
      if HasResult(history, id) {
        var m :| m in history && m.toolCallId == Some(id);
        assert m in Repaired(history);
      } else {
        var i :| 0 <= i < |missing| && missing[i] == id;
        assert markers[i] in Repaired(history);
      }
    }
    if Answered(history) {
      if missing != [] {
        assert missing[0] in missing;
        FilterMember(i => !HasResult(history, i), CallIds(history), missing[0]);
      }
      assert markers == [];
      assert history + markers == history;
    }
  }

  lemma {:induction false} CallIdsAppend(a: seq<Message>, b: seq<Message>)
    ensures CallIds(a + b) == CallIds(a) + CallIds(b)
    decreases |b|
  {
    if b == [] {
      assert a + b == a;
    } else {
      var front, last := b[..|b| - 1], b[|b| - 1];
      CallIdsAppend(a, front);
      CallIdsSnoc(front, last);
      CallIdsSnoc(a + front, last);
      assert b == front + [last] && a + b == (a + front) + [last];
      assert CallIds(a) + (CallIds(front) + IdsOf(last.toolCalls))
          == (CallIds(a) + CallIds(front)) + IdsOf(last.toolCalls);
    }
  }

  lemma CallIdsSnoc(history: seq<Message>, m: Message)
    ensures CallIds(history + [m]) == CallIds(history) + IdsOf(m.toolCalls)
  {
    assert (history + [m])[..|history|] == history;
  }

  lemma {:induction false} MarkersMakeNoCalls(ids: seq<string>)
    ensures CallIds(Markers(ids)) == []
  {
    if ids != [] {
      var markers := Markers(ids);
      MarkersMakeNoCalls(ids[..|ids| - 1]);
      assert markers[..|markers| - 1] == Markers(ids[..|ids| - 1]);
    }
  }

  /** Appending messages that answer their own calls keeps a history answered. */
  lemma AnsweredAppend(a: seq<Message>, b: seq<Message>)
    requires Answered(a) && Answered(b)
    ensures Answered(a + b)
  {
    CallIdsAppend(a, b);
    forall id | id in CallIds(a + b) ensures HasResult(a + b, id) {
      if id in CallIds(a) {
        var m :| m in a && m.toolCallId == Some(id);
        assert m in a + b;
      } else {
        var m :| m in b && m.toolCallId == Some(id);
        assert m in a + b;
      }
    }
  }

  /** The session object: its history and how often it was compacted. */
  class Conversation {
    var history: seq<Message>
    var compactCount: nat

    constructor (initial: seq<Message>)
      ensures history == initial && compactCount == 0
    {
      history, compactCount := initial, 0;
    }

    method AppendMessages(messages: seq<Message>)
      modifies this`history
      ensures history == old(history) + messages
    {
      if messages != [] {
        history := history + messages;
      }
    }

    method Compact()
      modifies this
      ensures history == Compacted(old(history)) && compactCount == old(compactCount) + 1
      ensures old(history) != [] ==> history != [] && history[0] == old(history)[0]
      ensures |old(history)| <= 2 ==> history == old(history)
      ensures |old(history)| > 2 ==>
                && |history| == |old(history)| - 1 && history[1..] == old(history)[2..]
                && history[|history| - 1] == old(history)[|old(history)| - 1]
    {
      if |history| > 2 {
        history := history[..1] + history[2..];
      }
      compactCount := compactCount + 1;
    }

    method RepairMissingToolOutputs() returns (count: nat)
      modifies this`history
      ensures history == Repaired(old(history)) && count == |history| - |old(history)|
      ensures Answered(history)
      ensures Answered(old(history)) ==> history == old(history)
    {
      var missing := MissingToolResults(history);
      count := |missing|;
      RepairAnswersEveryCall(history);
      history := history + Markers(missing);
    }
  }

  /** Two passes: collect the calls and the results, then keep the calls without a result. */
  method MissingToolResults(history: seq<Message>) returns (missing: seq<string>)
    ensures missing == Missing(history)
    ensures forall id :: id in missing <==> id in CallIds(history) && !HasResult(history, id)
  {
    var calls: seq<string> := [];
    var results: seq<string> := [];
    for i := 0 to |history|
      invariant calls == CallIds(history[..i])
      invariant forall id :: id in results <==> HasResult(history[..i], id)
    {
      var message := history[i];
      var before := calls;
      for j := 0 to |message.toolCalls|
        invariant calls == before + IdsOf(message.toolCalls)[..j]
      {
        calls := calls + [message.toolCalls[j].id];
      }
      if message.toolCallId.Some? {
        results := results + [message.toolCallId.value];
      }
      assert history[..i + 1] == history[..i] + [message];
      assert history[..i + 1][..i] == history[..i];
      assert calls == before + IdsOf(message.toolCalls);
    }
    assert history[..|history|] == history;
    missing := [];
    for i := 0 to |calls|
      invariant missing == Filter(id => !HasResult(history, id), calls[..i])
    {
      assert calls[..i + 1] == calls[..i] + [calls[i]];
      assert calls[..i + 1][..i] == calls[..i];
      if calls[i] !in results {
        missing := missing + [calls[i]];
      }
    }
    assert calls[..|calls|] == calls;
    forall id ensures id in missing <==> id in CallIds(history) && !HasResult(history, id) {
      FilterMember(i => !HasResult(history, i), CallIds(history), id);
    }
  }
}
