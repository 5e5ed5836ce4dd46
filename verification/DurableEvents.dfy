/**
 What is lost with the events that are not persisted (crates/ta-store/src/events.rs:140-173): text and tool output
 as they stream, and nothing else. Approvals and the ranges of a run are read from durable events as from all.
 */
module DurableEvents {
  import opened Prelude
  import opened Wire
  import opened AgentTurnsReplay
  import A = Approvals
  import R = EventRanges

  /** A piece of a message or of a tool's output, on its way. */
  predicate IsText(rec: EventRecord) {
    match rec.payload
    case AgentStream(_, Emission(_, _, _, AssistantMessageDelta(_))) => true
    case AgentStream(_, Emission(_, _, _, ToolCallProgressed(_))) => true
    case _ => false
  }

  function WithoutText(log: seq<EventRecord>): seq<EventRecord> {
    Filter(rec => !IsText(rec), log)
  }

  lemma WithoutTextSnoc(log: seq<EventRecord>, rec: EventRecord)
    ensures WithoutText(log + [rec]) == if IsText(rec) then WithoutText(log) else WithoutText(log) + [rec]
  {
    FilterSnoc(r => !IsText(r), log, rec);
  }

  lemma DurableIsNoText(rec: EventRecord)
    ensures IsDurable(rec) <==> !IsText(rec)
  {
  }

  lemma DurableSnoc(log: seq<EventRecord>, rec: EventRecord)
    ensures DurableOf(log + [rec]) == if IsText(rec) then DurableOf(log) else DurableOf(log) + [rec]
  {
    DurableIsNoText(rec);
    FilterSnoc(IsDurable, log, rec);
  }

  /** Durable events are all but the pieces of text, in order. */
  lemma {:induction false} OnlyTextIsLost(log: seq<EventRecord>)
    ensures DurableOf(log) == WithoutText(log)
  {
    hide IsText;
    if log != [] {
      var front, last := log[..|log| - 1], log[|log| - 1];
      assert log == front + [last];
      hide DurableOf, WithoutText;
      OnlyTextIsLost(front);
      DurableSnoc(front, last);
      WithoutTextSnoc(front, last);
    }
  }

  /** The approvals folded from the durable events are those folded from all. */
  lemma {:induction false} ApprovalsAreDurable(log: seq<EventRecord>)
    ensures A.Fold(DurableOf(log)) == A.Fold(log)
  {
    if log != [] {
      var front, last := log[..|log| - 1], log[|log| - 1];
      assert log == front + [last];
      ApprovalsAreDurable(front);
      DurableSnoc(front, last);
      A.FoldSnoc(front, last);
      A.FoldSnoc(DurableOf(front), last);
      hide A.Fold, DurableOf;
    }
  }

  /** A run's durable events are its events without the pieces of text, so its ranges lose those only. */
  lemma {:induction false} RangesLoseTextOnly(log: seq<EventRecord>, q: R.RangeQuery)
    ensures R.Own(DurableOf(log), q) == WithoutText(R.Own(log, q))
  {
    if log != [] {
      var front, last := log[..|log| - 1], log[|log| - 1];
      assert log == front + [last];
      hide R.Own, DurableOf, WithoutText, IsText;
      RangesLoseTextOnly(front, q);
      DurableSnoc(front, last);
      R.OwnSnoc(front, q, last);
      R.OwnSnoc(DurableOf(front), q, last);
      WithoutTextSnoc(R.Own(front, q), last);
    }
  }

  /** Every event but a change of the session itself belongs to the run that it names. */
  lemma EventsBelongToTheirRun(event: DaemonEvent)
    ensures EventRunId(event) == match event {
              case Approval(Requested(request)) => Some(request.runId)
              case Approval(Resolved(resolution)) => Some(resolution.runId)
              case SessionChanged => None
              case _ => Some(event.runId)
            }
  {
  }
}
