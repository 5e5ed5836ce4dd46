/** The steering and follow-up message queues of a run (crates/taugentic-agent/src/queues.rs). */
module Queues {
  import opened Prelude
  import opened Session

  datatype Mode = All | OneAtATime

  /** A queued message; the time it was queued at is not part of the model. */
  datatype Queued = Queued(seqNo: nat, message: Message)

  datatype Queue = Queue(
    steering: seq<Queued>, followUp: seq<Queued>, steeringMode: Mode, followUpMode: Mode, nextSeq: nat)

  const EmptyQueue: Queue := Queue([], [], All, All, 0)

  function Messages(items: seq<Queued>): seq<Message> {
    seq(|items|, i requires 0 <= i < |items| => items[i].message)
  }

  function SaturatingNext(n: nat): nat {
    if n < U64_MAX then n + 1 else n
  }

  function PushSteering(q: Queue, m: Message): Queue {
    q.(steering := q.steering + [Queued(q.nextSeq, m)], nextSeq := SaturatingNext(q.nextSeq))
  }

  function PushFollowUp(q: Queue, m: Message): Queue {
    q.(followUp := q.followUp + [Queued(q.nextSeq, m)], nextSeq := SaturatingNext(q.nextSeq))
  }

  function PushAllSteering(q: Queue, ms: seq<Message>): Queue {
    if ms == [] then q else PushSteering(PushAllSteering(q, ms[..|ms| - 1]), ms[|ms| - 1])
  }

  function PushAllFollowUp(q: Queue, ms: seq<Message>): Queue {
    if ms == [] then q else PushFollowUp(PushAllFollowUp(q, ms[..|ms| - 1]), ms[|ms| - 1])
  }

  /** How many messages one drain takes. */
  function DrainCount(items: seq<Queued>, mode: Mode): (n: nat)
    ensures n <= |items|
    ensures n == 0 <==> items == []
  {
    match mode
    case All => |items|
    case OneAtATime => if items == [] then 0 else 1
  }

  /** A drain of the steering lane: fetched messages join the lane first. */
  function DrainSteering(q: Queue, fetched: seq<Message>): (Queue, seq<Message>) {
    var full := PushAllSteering(q, fetched);
    var n := DrainCount(full.steering, full.steeringMode);
    (full.(steering := full.steering[n..]), Messages(full.steering[..n]))
  }

  function DrainFollowUp(q: Queue, fetched: seq<Message>): (Queue, seq<Message>) {
    var full := PushAllFollowUp(q, fetched);
    var n := DrainCount(full.followUp, full.followUpMode);
    (full.(followUp := full.followUp[n..]), Messages(full.followUp[..n]))
  }

  lemma MessagesSnoc(items: seq<Queued>, item: Queued)
    ensures Messages(items + [item]) == Messages(items) + [item.message]
  {
  }

  lemma {:induction false} PushAllSteeringAppends(q: Queue, ms: seq<Message>)
    ensures Messages(PushAllSteering(q, ms).steering) == Messages(q.steering) + ms
    ensures PushAllSteering(q, ms).followUp == q.followUp
    ensures PushAllSteering(q, ms).steeringMode == q.steeringMode
    ensures PushAllSteering(q, ms).followUpMode == q.followUpMode
  {
    if ms == [] {
      assert Messages(q.steering) + ms == Messages(q.steering);
    } else {
      var front, last := ms[..|ms| - 1], ms[|ms| - 1];
      PushAllSteeringAppends(q, front);
      assert ms == front + [last];
      MessagesSnoc(PushAllSteering(q, front).steering, Queued(PushAllSteering(q, front).nextSeq, last));
    }
  }

  lemma {:induction false} PushAllFollowUpAppends(q: Queue, ms: seq<Message>)
    ensures Messages(PushAllFollowUp(q, ms).followUp) == Messages(q.followUp) + ms
    ensures PushAllFollowUp(q, ms).steering == q.steering
    ensures PushAllFollowUp(q, ms).steeringMode == q.steeringMode
    ensures PushAllFollowUp(q, ms).followUpMode == q.followUpMode
  {
    if ms == [] {
      assert Messages(q.followUp) + ms == Messages(q.followUp);
    } else {
      var front, last := ms[..|ms| - 1], ms[|ms| - 1];
      PushAllFollowUpAppends(q, front);
      assert ms == front + [last];
      MessagesSnoc(PushAllFollowUp(q, front).followUp, Queued(PushAllFollowUp(q, front).nextSeq, last));
    }
  }

  /**
   A drain delivers from the front and loses nothing, leaves the other lane alone, and delivers
   nothing only when its lane is then empty.
   */
  lemma DrainSteeringConserves(q: Queue, fetched: seq<Message>)
    ensures var (after, delivered) := DrainSteering(q, fetched);
            && delivered + Messages(after.steering) == Messages(q.steering) + fetched
            && after.followUp == q.followUp
            && (delivered == [] <==> Messages(q.steering) + fetched == [])
            && (delivered == [] ==> after.steering == [])
  {
    PushAllSteeringAppends(q, fetched);
  }

  lemma DrainFollowUpConserves(q: Queue, fetched: seq<Message>)
    ensures var (after, delivered) := DrainFollowUp(q, fetched);
            && delivered + Messages(after.followUp) == Messages(q.followUp) + fetched
            && after.steering == q.steering
            && (delivered == [] <==> Messages(q.followUp) + fetched == [])
            && (delivered == [] ==> after.followUp == [])
  {
    PushAllFollowUpAppends(q, fetched);
  }

  /** What each mode takes: the whole lane, fetched messages included, or its oldest message alone. */
  lemma DrainsByMode(q: Queue, fetched: seq<Message>)
    ensures var lane, (after, delivered) := Messages(q.steering) + fetched, DrainSteering(q, fetched);
            match q.steeringMode {
              case All => delivered == lane && after.steering == []
              case OneAtATime => lane != [] ==> delivered == [lane[0]] && Messages(after.steering) == lane[1..]
            }
    ensures var lane, (after, delivered) := Messages(q.followUp) + fetched, DrainFollowUp(q, fetched);
            match q.followUpMode {
              case All => delivered == lane && after.followUp == []
              case OneAtATime => lane != [] ==> delivered == [lane[0]] && Messages(after.followUp) == lane[1..]
            }
  {
    PushAllSteeringAppends(q, fetched);
    PushAllFollowUpAppends(q, fetched);
  }

  // Whole histories of queue operations.

  datatype Op =
    | OpPushSteering(message: Message)
    | OpPushFollowUp(message: Message)
    | OpSetModes(steeringMode: Mode, followUpMode: Mode)
    | OpDrainSteering(fetched: seq<Message>)
    | OpDrainFollowUp(fetched: seq<Message>)

  /** A queue together with everything that entered and left each lane. */
  datatype Ledger = Ledger(
    queue: Queue,
    steeringIn: seq<Message>, steeringOut: seq<Message>,
    followUpIn: seq<Message>, followUpOut: seq<Message>)

  function Perform(l: Ledger, op: Op): Ledger {
    match op
    case OpPushSteering(m) => l.(queue := PushSteering(l.queue, m), steeringIn := l.steeringIn + [m])
    case OpPushFollowUp(m) => l.(queue := PushFollowUp(l.queue, m), followUpIn := l.followUpIn + [m])
    case OpSetModes(s, f) => l.(queue := l.queue.(steeringMode := s, followUpMode := f))
    case OpDrainSteering(fetched) =>
      var (after, delivered) := DrainSteering(l.queue, fetched);
      l.(queue := after, steeringIn := l.steeringIn + fetched, steeringOut := l.steeringOut + delivered)
    case OpDrainFollowUp(fetched) =>
      var (after, delivered) := DrainFollowUp(l.queue, fetched);
      l.(queue := after, followUpIn := l.followUpIn + fetched, followUpOut := l.followUpOut + delivered)
  }

  function PerformAll(ops: seq<Op>): Ledger {
    if ops == [] then Ledger(EmptyQueue, [], [], [], [])
    else Perform(PerformAll(ops[..|ops| - 1]), ops[|ops| - 1])
  }

  /** What left a lane, followed by what is still queued, is what entered it, in order. */
  predicate Balanced(l: Ledger) {
    && l.steeringOut + Messages(l.queue.steering) == l.steeringIn
    && l.followUpOut + Messages(l.queue.followUp) == l.followUpIn
  }

  lemma Rebalance(out: seq<Message>, queued: seq<Message>, fetched: seq<Message>,
                  delivered: seq<Message>, left: seq<Message>)
    requires delivered + left == queued + fetched
    ensures (out + delivered) + left == (out + queued) + fetched
  {
    assert (out + delivered) + left == out + (delivered + left);
  }

  lemma PerformBalanced(l: Ledger, op: Op)
    requires Balanced(l)
    ensures Balanced(Perform(l, op))
  {
    match op {
      case OpPushSteering(m) =>
        assert Messages(PushSteering(l.queue, m).steering) == Messages(l.queue.steering) + [m];
      case OpPushFollowUp(m) =>
        assert Messages(PushFollowUp(l.queue, m).followUp) == Messages(l.queue.followUp) + [m];
      case OpSetModes(_, _) =>
      case OpDrainSteering(fetched) =>
        DrainSteeringConserves(l.queue, fetched);
        var (after, delivered) := DrainSteering(l.queue, fetched);
        Rebalance(l.steeringOut, Messages(l.queue.steering), fetched, delivered, Messages(after.steering));
      case OpDrainFollowUp(fetched) =>
        DrainFollowUpConserves(l.queue, fetched);
        var (after, delivered) := DrainFollowUp(l.queue, fetched);
        Rebalance(l.followUpOut, Messages(l.queue.followUp), fetched, delivered, Messages(after.followUp));
    }
  }

  /** Queue conservation over every sequence of pushes, fetches, mode changes and drains. */
  lemma {:induction false} QueueConservation(ops: seq<Op>)
    ensures Balanced(PerformAll(ops))
  {
    if ops != [] {
      QueueConservation(ops[..|ops| - 1]);
      PerformBalanced(PerformAll(ops[..|ops| - 1]), ops[|ops| - 1]);
    }
  }

  /** A lane's mode is the one it was last given. */
  function LastModes(ops: seq<Op>): (Mode, Mode) {
    if ops == [] then (All, All)
    else
      match ops[|ops| - 1]
      case OpSetModes(steering, followUp) => (steering, followUp)
      case _ => LastModes(ops[..|ops| - 1])
  }

  lemma {:induction false} ModesAreAsLastSet(ops: seq<Op>)
    ensures var q := PerformAll(ops).queue; (q.steeringMode, q.followUpMode) == LastModes(ops)
  {
    if ops != [] {
      var front, op := ops[..|ops| - 1], ops[|ops| - 1];
      ModesAreAsLastSet(front);
      if op.OpDrainSteering? { PushAllSteeringAppends(PerformAll(front).queue, op.fetched); }
      if op.OpDrainFollowUp? { PushAllFollowUpAppends(PerformAll(front).queue, op.fetched); }
    }
  }

  // Sequence numbers.

  /** Messages are numbered as they come in, over both lanes. */
  ghost predicate NumberedInOrder(l: Ledger) {
    var pushed := |l.steeringIn| + |l.followUpIn|;
    && l.queue.nextSeq == (if pushed < U64_MAX then pushed else U64_MAX)
    && (pushed <= U64_MAX ==> InOrder(l.queue.steering, pushed) && InOrder(l.queue.followUp, pushed))
    && (pushed <= U64_MAX ==> Apart(l.queue.steering, l.queue.followUp))
  }

  ghost predicate InOrder(items: seq<Queued>, n: nat) {
    && (forall i, j | 0 <= i < j < |items| :: items[i].seqNo < items[j].seqNo)
    && (forall i | 0 <= i < |items| :: items[i].seqNo < n)
  }

  ghost predicate Apart(a: seq<Queued>, b: seq<Queued>) {
    forall i, j | 0 <= i < |a| && 0 <= j < |b| :: a[i].seqNo != b[j].seqNo
  }

  /** Pushing messages one by one is what a drain does with the ones it fetches. */
  lemma {:induction false} FetchIsPushing(l: Ledger, fetched: seq<Message>, steer: bool) returns (full: Ledger)
    requires NumberedInOrder(l)
    ensures NumberedInOrder(full)
    ensures full == if steer then l.(queue := PushAllSteering(l.queue, fetched), steeringIn := l.steeringIn + fetched)
                    else l.(queue := PushAllFollowUp(l.queue, fetched), followUpIn := l.followUpIn + fetched)
  {
    if fetched == [] {
      full := l;
      assert l.steeringIn + [] == l.steeringIn && l.followUpIn + [] == l.followUpIn;
    } else {
      var front, last := fetched[..|fetched| - 1], fetched[|fetched| - 1];
      var before := FetchIsPushing(l, front, steer);
      full := Perform(before, if steer then OpPushSteering(last) else OpPushFollowUp(last));
      PushIsNumbered(before, last, steer);
      assert fetched == front + [last];
      assert l.steeringIn + fetched == l.steeringIn + front + [last];
      assert l.followUpIn + fetched == l.followUpIn + front + [last];
    }
  }

  lemma PushIsNumbered(l: Ledger, m: Message, steer: bool)
    requires NumberedInOrder(l)
    ensures NumberedInOrder(Perform(l, if steer then OpPushSteering(m) else OpPushFollowUp(m)))
  {
  }

  /** Whatever is taken out, the rest keeps its numbers. */
  lemma TakingIsNumbered(l: Ledger, after: Ledger, m: nat, n: nat)
    requires NumberedInOrder(l) && m <= |l.queue.steering| && n <= |l.queue.followUp|
    requires after.queue.steering == l.queue.steering[m..] && after.queue.followUp == l.queue.followUp[n..]
    requires after.queue.nextSeq == l.queue.nextSeq
    requires after.steeringIn == l.steeringIn && after.followUpIn == l.followUpIn
    ensures NumberedInOrder(after)
  {
  }

  /** Over every sequence of operations, messages carry the numbers in which they came, up to 64 bits. */
  lemma {:induction false} NumbersFollowArrival(ops: seq<Op>)
    ensures NumberedInOrder(PerformAll(ops))
  {
    if ops != [] {
      var front, op := ops[..|ops| - 1], ops[|ops| - 1];
      var l := PerformAll(front);
      NumbersFollowArrival(front);
      hide NumberedInOrder;
      match op {
        case OpPushSteering(m) => PushIsNumbered(l, m, true);
        case OpPushFollowUp(m) => PushIsNumbered(l, m, false);
        case OpSetModes(_, _) => TakingIsNumbered(l, Perform(l, op), 0, 0);
        case OpDrainSteering(fetched) =>
          var full := FetchIsPushing(l, fetched, true);
          PushAllSteeringAppends(l.queue, fetched);
          TakingIsNumbered(full, Perform(l, op), DrainCount(full.queue.steering, full.queue.steeringMode), 0);
        case OpDrainFollowUp(fetched) =>
          var full := FetchIsPushing(l, fetched, false);
          PushAllFollowUpAppends(l.queue, fetched);
          TakingIsNumbered(full, Perform(l, op), 0, DrainCount(full.queue.followUp, full.queue.followUpMode));
      }
    }
  }

  /** The queue object that a turn loop owns. */
  class MessageQueue {
    var steering: seq<Queued>
    var followUp: seq<Queued>
    var steeringMode: Mode
    var followUpMode: Mode
    var nextSeq: nat

    constructor ()
      ensures State() == EmptyQueue
    {
      steering, followUp, steeringMode, followUpMode, nextSeq := [], [], All, All, 0;
    }

    function State(): Queue
      reads this
    {
      Queue(steering, followUp, steeringMode, followUpMode, nextSeq)
    }

    method SetModes(s: Mode, f: Mode)
      modifies this`steeringMode, this`followUpMode
      ensures State() == old(State()).(steeringMode := s, followUpMode := f)
    {
      steeringMode, followUpMode := s, f;
    }

    method Push(steer: bool, message: Message)
      modifies this`steering, this`followUp, this`nextSeq
      ensures State() == if steer then PushSteering(old(State()), message) else PushFollowUp(old(State()), message)
    {
      var queued := Queued(nextSeq, message);
      if nextSeq < U64_MAX {
        nextSeq := nextSeq + 1;
      }
      if steer {
        steering := steering + [queued];
      } else {
        followUp := followUp + [queued];
      }
    }

    method DrainSteeringInto(session: Conversation, fetched: seq<Message>) returns (delivered: seq<Message>)
      modifies this`steering, this`followUp, this`nextSeq, session`history
      ensures (State(), delivered) == DrainSteering(old(State()), fetched)
      ensures session.history == old(session.history) + delivered
      ensures delivered + Messages(steering) == Messages(old(steering)) + fetched
    {
      for i := 0 to |fetched|
        invariant State() == PushAllSteering(old(State()), fetched[..i])
        invariant session.history == old(session.history)
      {
        Push(true, fetched[i]);
        assert fetched[..i + 1][..i] == fetched[..i];
      }
      assert fetched[..|fetched|] == fetched;
      DrainSteeringConserves(old(State()), fetched);
      var n := DrainCount(steering, steeringMode);
      delivered := Messages(steering[..n]);
      steering := steering[n..];
      session.AppendMessages(delivered);
    }

    method DrainFollowUpInto(session: Conversation, fetched: seq<Message>) returns (delivered: seq<Message>)
      modifies this`steering, this`followUp, this`nextSeq, session`history
      ensures (State(), delivered) == DrainFollowUp(old(State()), fetched)
      ensures session.history == old(session.history) + delivered
      ensures delivered + Messages(followUp) == Messages(old(followUp)) + fetched
      ensures delivered == [] ==> followUp == []
    {
      for i := 0 to |fetched|
        invariant State() == PushAllFollowUp(old(State()), fetched[..i])
        invariant session.history == old(session.history)
      {
        Push(false, fetched[i]);
        assert fetched[..i + 1][..i] == fetched[..i];
      }
      assert fetched[..|fetched|] == fetched;
      DrainFollowUpConserves(old(State()), fetched);
      var n := DrainCount(followUp, followUpMode);
      delivered := Messages(followUp[..n]);
      followUp := followUp[n..];
      session.AppendMessages(delivered);
    }
  }
}
