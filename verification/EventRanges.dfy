/** Catching up with one run's events in ranges (crates/ta-store/src/events.rs). */
module EventRanges {
  import opened Prelude
  import opened Wire

  datatype RangeQuery = RangeQuery(sessionId: string, runId: string, afterSequence: Option<nat>, limit: nat)

  datatype Range = Range(records: seq<EventRecord>, latestSequence: Option<nat>)

  predicate OfRun(q: RangeQuery, rec: EventRecord) {
    rec.sessionId == q.sessionId && EventRunId(rec.payload) == Some(q.runId)
  }

  /** The run's own records, in log order. */
  function Own(records: seq<EventRecord>, q: RangeQuery): seq<EventRecord> {
    Filter(rec => OfRun(q, rec), records)
  }

  predicate IsAfter(rec: EventRecord, after: Option<nat>) {
    after.Some? ==> rec.sequence > after.value
  }

  function After(own: seq<EventRecord>, after: Option<nat>): seq<EventRecord> {
    Filter(rec => IsAfter(rec, after), own)
  }

  function AtMost<T>(s: seq<T>, limit: nat): seq<T> {
    if |s| <= limit then s else s[..limit]
  }

  /** The first records after the given sequence, and the run's latest sequence whatever was asked for. */
  function RangeOf(own: seq<EventRecord>, after: Option<nat>, limit: nat): Range {
    Range(AtMost(After(own, after), limit), if own == [] then None else Some(own[|own| - 1].sequence))
  }

  lemma RangeSnoc(own: seq<EventRecord>, rec: EventRecord, after: Option<nat>, limit: nat)
    ensures var range := RangeOf(own, after, limit);
            RangeOf(own + [rec], after, limit) ==
            Range(if IsAfter(rec, after) && |range.records| < limit then range.records + [rec] else range.records,
                  Some(rec.sequence))
  {
    FilterSnoc(r => IsAfter(r, after), own, rec);
    if !IsAfter(rec, after) { assert After(own + [rec], after) == After(own, after); }
  }

  lemma OwnSnoc(records: seq<EventRecord>, q: RangeQuery, rec: EventRecord)
    ensures Own(records + [rec], q) == if OfRun(q, rec) then Own(records, q) + [rec] else Own(records, q)
  {
    FilterSnoc(r => OfRun(q, r), records, rec);
  }

  method RunEventRange(records: seq<EventRecord>, q: RangeQuery) returns (range: Range)
    ensures range == RangeOf(Own(records, q), q.afterSequence, q.limit)
  {
    var latest: Option<nat> := None;
    var selected: seq<EventRecord> := [];
    for i := 0 to |records|
      invariant Range(selected, latest) == RangeOf(Own(records[..i], q), q.afterSequence, q.limit)
    {
      var rec := records[i];
      assert records[..i + 1] == records[..i] + [rec];
      OwnSnoc(records[..i], q, rec);
      RangeSnoc(Own(records[..i], q), rec, q.afterSequence, q.limit);
      hide RangeOf, Own;
      if rec.sessionId == q.sessionId && EventRunId(rec.payload) == Some(q.runId) {
        latest := Some(rec.sequence);
        var alreadySeen := q.afterSequence.Some? && rec.sequence <= q.afterSequence.value;
        if !alreadySeen && |selected| < q.limit {
          selected := selected + [rec];
        }
      }
    }
    assert records[..|records|] == records;
    range := Range(selected, latest);
  }

  /** A record that the query asks for, said in its fields. */
  predicate AskedFor(q: RangeQuery, rec: EventRecord) {
    && rec.sessionId == q.sessionId && EventRunId(rec.payload) == Some(q.runId)
    && match q.afterSequence { case Some(after) => after < rec.sequence case None => true }
  }

  /** A range holds only records that are asked for, as many as the limit allows, and if there is room all of them. */
  lemma RangesHoldWhatIsAskedFor(records: seq<EventRecord>, q: RangeQuery)
    ensures var range := RangeOf(Own(records, q), q.afterSequence, q.limit);
            && |range.records| <= q.limit
            && (forall rec | rec in range.records :: rec in records && AskedFor(q, rec))
            && (|range.records| < q.limit ==> forall rec | rec in records && AskedFor(q, rec) :: rec in range.records)
            && (range.latestSequence == None <==>
                  forall rec | rec in records :: rec.sessionId != q.sessionId || EventRunId(rec.payload) != Some(q.runId))
  {
    var own := Own(records, q);
    var after := After(own, q.afterSequence);
    forall rec
      ensures rec in own <==> rec in records && rec.sessionId == q.sessionId && EventRunId(rec.payload) == Some(q.runId)
    {
      FilterMember(r => OfRun(q, r), records, rec);
    }
    forall rec ensures rec in after <==> rec in records && AskedFor(q, rec) {
      FilterMember(r => IsAfter(r, q.afterSequence), own, rec);
    }
    hide Own, After, EventRunId;
    assert own != [] ==> own[0] in own;
  }

  predicate Increasing(records: seq<EventRecord>) {
    forall i, j | 0 <= i < j < |records| :: records[i].sequence < records[j].sequence
  }

  lemma {:induction false} OwnIncreases(records: seq<EventRecord>, q: RangeQuery)
    requires Increasing(records)
    ensures Increasing(Own(records, q))
  {
    if records != [] {
      var front, last := records[..|records| - 1], records[|records| - 1];
      OwnIncreases(front, q);
      forall rec | rec in Own(front, q) ensures rec.sequence < last.sequence {
        FilterMember(r => OfRun(q, r), front, rec);
      }
    }
  }

  lemma {:induction false} AllAfter(own: seq<EventRecord>, after: Option<nat>)
    requires forall i | 0 <= i < |own| :: IsAfter(own[i], after)
    ensures After(own, after) == own
  {
    if own != [] { AllAfter(own[..|own| - 1], after); }
  }

  lemma {:induction false} NoneAfter(own: seq<EventRecord>, after: Option<nat>)
    requires forall i | 0 <= i < |own| :: !IsAfter(own[i], after)
    ensures After(own, after) == []
  {
    if own != [] { NoneAfter(own[..|own| - 1], after); }
  }

  /** `after` is what a client sends that has received the first `n` records. */
  predicate HasReceived(own: seq<EventRecord>, n: nat, after: Option<nat>) {
    n <= |own| && after == if n == 0 then None else Some(own[n - 1].sequence)
  }

  lemma RestIsAfter(own: seq<EventRecord>, n: nat, after: Option<nat>)
    requires Increasing(own) && HasReceived(own, n, after)
    ensures After(own, after) == own[n..]
  {
    SplitsAt(own, n);
    ReceivedOrAfter(own, n, after);
    hide *;
    NoneAfter(own[..n], after);
    AllAfter(own[n..], after);
    AfterAppend(own[..n], own[n..], after);
  }

  lemma SplitsAt(own: seq<EventRecord>, n: nat)
    requires n <= |own|
    ensures own == own[..n] + own[n..] && [] + own[n..] == own[n..]
  {
  }

  lemma AfterAppend(a: seq<EventRecord>, b: seq<EventRecord>, after: Option<nat>)
    ensures After(a + b, after) == After(a, after) + After(b, after)
  {
    FilterAppend(rec => IsAfter(rec, after), a, b);
  }

  lemma ReceivedOrAfter(own: seq<EventRecord>, n: nat, after: Option<nat>)
    requires Increasing(own) && HasReceived(own, n, after)
    ensures forall k | 0 <= k < |own[..n]| :: !IsAfter(own[..n][k], after)
    ensures forall k | 0 <= k < |own[n..]| :: IsAfter(own[n..][k], after)
  {
  }

  /** The ranges a client gets that asks again after the last record it has received. */
  ghost predicate Followed(records: seq<EventRecord>, q: RangeQuery, ranges: seq<Range>) {
    && ranges != []
    && ranges[0] == RangeOf(Own(records, q), None, q.limit)
    && forall i, j | 0 <= i < j < |ranges| && j == i + 1 ::
         ComesNext(records, q, ranges[i], ranges[j])
  }

  predicate ComesNext(records: seq<EventRecord>, q: RangeQuery, range: Range, next: Range) {
    range.records != [] && next == NextRange(records, q, range.records)
  }

  function NextRange(records: seq<EventRecord>, q: RangeQuery, last: seq<EventRecord>): Range
    requires last != []
  {
    RangeOf(Own(records, q), Some(last[|last| - 1].sequence), q.limit)
  }

  lemma FollowedFront(records: seq<EventRecord>, q: RangeQuery, ranges: seq<Range>)
    requires Followed(records, q, ranges) && |ranges| > 1
    ensures var n := |ranges| - 1;
            && Followed(records, q, ranges[..n])
            && ranges[n - 1].records != [] && ranges[n] == NextRange(records, q, ranges[n - 1].records)
  {
    var n := |ranges| - 1;
    var front := ranges[..n];
    assert ComesNext(records, q, ranges[n - 1], ranges[n]);
    hide ComesNext, RangeOf, Own;
    forall i, j | 0 <= i < j < n && j == i + 1 ensures ComesNext(records, q, front[i], front[j]) {
      assert ComesNext(records, q, ranges[i], ranges[j]);
    }
  }

  lemma FollowedStart(records: seq<EventRecord>, q: RangeQuery, ranges: seq<Range>)
    requires Followed(records, q, ranges)
    ensures ranges != [] && ranges[0] == RangeOf(Own(records, q), None, q.limit)
  {
  }

  function Joined(ranges: seq<Range>): seq<EventRecord> {
    if ranges == [] then [] else Joined(ranges[..|ranges| - 1]) + ranges[|ranges| - 1].records
  }

  /**
   Catching up: on a log of increasing sequences, asking again after the last record received delivers a start
   of the run's records, nothing skipped and nothing repeated; it is complete exactly when the last record
   received carries the reported latest sequence, or there is none, and an empty range comes only then.
   */
  lemma {:induction false} FollowedRangesCatchUp(records: seq<EventRecord>, q: RangeQuery, ranges: seq<Range>)
    requires Increasing(records) && q.limit >= 1 && Followed(records, q, ranges)
    ensures var own, all, last := Own(records, q), Joined(ranges), ranges[|ranges| - 1];
            && all <= own
            && (last.records == [] ==> all == own)
            && (last.records != [] ==> HasReceived(own, |all|, Some(last.records[|last.records| - 1].sequence)))
            && (all == own <==>
                  last.latestSequence == if all == [] then None else Some(all[|all| - 1].sequence))
    decreases |ranges|
  {
    OwnIncreases(records, q);
    FollowedStart(records, q, ranges);
    var n, own := |ranges| - 1, Own(records, q);
    if n == 0 {
      FirstReceived(own);
      FirstJoined(ranges);
      CaughtUp(own, [], None, ranges[0], q.limit);
    } else {
      var front := ranges[..n];
      FollowedFront(records, q, ranges);
      FollowedRangesCatchUp(records, q, front);
      var before := front[n - 1].records;
      hide Own, RangeOf, HasReceived, Increasing, Followed;
      CaughtUp(own, Joined(front), Some(before[|before| - 1].sequence), ranges[n], q.limit);
    }
  }

  lemma FirstJoined(ranges: seq<Range>)
    requires |ranges| == 1
    ensures Joined(ranges) == [] + ranges[0].records
  {
    assert ranges[..0] == [];
  }

  /** What one more range makes of the records received so far. */
  lemma CaughtUp(own: seq<EventRecord>, received: seq<EventRecord>, after: Option<nat>, range: Range, limit: nat)
    requires Increasing(own) && received <= own && HasReceived(own, |received|, after) && limit >= 1
    requires range == RangeOf(own, after, limit)
    ensures var all := received + range.records;
            && all <= own
            && (range.records == [] ==> all == own)
            && (range.records != [] ==> HasReceived(own, |all|, Some(range.records[|range.records| - 1].sequence)))
            && (all == own <==>
                  range.latestSequence == if all == [] then None else Some(all[|all| - 1].sequence))
  {
    RangeContinues(own, |received|, after, limit);
    LatestOf(own, after, limit);
    hide RangeOf, HasReceived;
    var all := received + range.records;
    assert all == own[..|all|];
    LatestIsLast(own, |all|);
  }

  lemma FirstReceived(own: seq<EventRecord>)
    ensures HasReceived(own, 0, None)
  {
  }

  lemma LatestOf(own: seq<EventRecord>, after: Option<nat>, limit: nat)
    ensures RangeOf(own, after, limit).latestSequence == if own == [] then None else Some(own[|own| - 1].sequence)
  {
  }

  /** One more range continues where the client is. */
  lemma RangeContinues(own: seq<EventRecord>, n: nat, after: Option<nat>, limit: nat)
    requires Increasing(own) && HasReceived(own, n, after) && limit >= 1
    ensures var more := RangeOf(own, after, limit).records;
            && n + |more| <= |own| && own[..n] + more == own[..n + |more|]
            && (more == [] <==> n == |own|)
            && (more != [] ==> HasReceived(own, n + |more|, Some(more[|more| - 1].sequence)))
  {
    RestIsAfter(own, n, after);
    var more := RangeOf(own, after, limit).records;
    assert more == AtMost(own[n..], limit);
  }

  lemma LatestIsLast(own: seq<EventRecord>, n: nat)
    requires Increasing(own) && n <= |own|
    ensures own[..n] == own <==>
            (if own == [] then None else Some(own[|own| - 1].sequence))
            == if n == 0 then None else Some(own[n - 1].sequence)
  {
    assert n > 0 ==> (n - 1 < |own| - 1 ==> own[n - 1].sequence < own[|own| - 1].sequence);
  }
}
