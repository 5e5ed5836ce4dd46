/** The approval lifecycle of a session, folded from its events (crates/ta-store/src/approval_lifecycle.rs). */
module Approvals {
  import opened Prelude
  import opened Wire

  datatype Lifecycle = Lifecycle(pending: map<string, (nat, ApprovalRequest)>, resolved: set<string>)

  datatype Fault =
    | RequestOutsideRun
    | AlreadyPending
    | RequestAlreadyResolved
    | ResolutionOutsideRun
    | AlreadyResolved
    | NoPendingRequest
    | RunMismatch
    | ToolCallMismatch

  datatype LifecycleError = LifecycleError(approvalId: string, fault: Fault)

  const NoApprovals: Lifecycle := Lifecycle(map[], {})

  function ApplyApproval(l: Lifecycle, event: ApprovalEvent, sequence: nat, run: Option<string>):
    Result<Lifecycle, LifecycleError>
  {
    match event
    case Requested(request) =>
      if run.Some? && request.runId != run.value then Err(LifecycleError(request.id, RequestOutsideRun))
      else if request.id in l.pending then Err(LifecycleError(request.id, AlreadyPending))
      else if request.id in l.resolved then Err(LifecycleError(request.id, RequestAlreadyResolved))
      else Ok(l.(pending := l.pending[request.id := (sequence, request)]))
    case Resolved(resolution) =>
      var id := resolution.approvalId;
      if run.Some? && resolution.runId != run.value then Err(LifecycleError(id, ResolutionOutsideRun))
      else if id in l.resolved then Err(LifecycleError(id, AlreadyResolved))
      else if id !in l.pending then Err(LifecycleError(id, NoPendingRequest))
      else if l.pending[id].1.runId != resolution.runId then Err(LifecycleError(id, RunMismatch))
      else if l.pending[id].1.toolCallId != resolution.toolCallId then Err(LifecycleError(id, ToolCallMismatch))
      else Ok(Lifecycle(l.pending - {id}, l.resolved + {id}))
  }

  function ApplyEvent(l: Lifecycle, event: DaemonEvent, sequence: nat, run: Option<string>):
    Result<Lifecycle, LifecycleError>
  {
    if event.Approval? then ApplyApproval(l, event.event, sequence, run) else Ok(l)
  }

  function Fold(log: seq<EventRecord>): Result<Lifecycle, LifecycleError> {
    if log == [] then Ok(NoApprovals)
    else
      match Fold(log[..|log| - 1])
      case Err(e) => Err(e)
      case Ok(l) => ApplyEvent(l, log[|log| - 1].payload, log[|log| - 1].sequence, None)
  }

  /** Applying a batch to a copy of the state, numbering its events from zero. */
  function Transition(l: Lifecycle, run: string, events: seq<DaemonEvent>): Result<Lifecycle, LifecycleError> {
    if events == [] then Ok(l)
    else
      match Transition(l, run, events[..|events| - 1])
      case Err(e) => Err(e)
      case Ok(before) => ApplyEvent(before, events[|events| - 1], |events| - 1, Some(run))
  }

  function Payloads(batch: seq<EventRecord>): seq<DaemonEvent> {
    seq(|batch|, i requires 0 <= i < |batch| => batch[i].payload)
  }

  function ApprovalRun(event: ApprovalEvent): string {
    match event
    case Requested(request) => request.runId
    case Resolved(resolution) => resolution.runId
  }

  /** Every approval event of the batch belongs to the run. */
  predicate OfRun(run: string, batch: seq<EventRecord>) {
    forall i | 0 <= i < |batch| && batch[i].payload.Approval? :: ApprovalRun(batch[i].payload.event) == run
  }

  // Validated batches keep the log foldable.

  /** States that differ only in the sequence numbers they remember. */
  ghost predicate Alike(a: Lifecycle, b: Lifecycle) {
    && a.resolved == b.resolved
    && (forall id :: id in a.pending <==> id in b.pending)
    && (forall id | id in a.pending :: a.pending[id].1 == b.pending[id].1)
  }

  lemma FoldSnoc(log: seq<EventRecord>, rec: EventRecord)
    ensures Fold(log + [rec]) ==
            match Fold(log)
            case Err(e) => Err(e)
            case Ok(l) => ApplyEvent(l, rec.payload, rec.sequence, None)
  {
    assert (log + [rec])[..|log|] == log;
  }

  lemma AlikeStep(a: Lifecycle, b: Lifecycle, event: DaemonEvent, i: nat, j: nat, run: string)
    requires Alike(a, b)
    ensures ApplyEvent(a, event, i, Some(run)).Ok? <==>
            ApplyEvent(b, event, j, None).Ok? && (event.Approval? ==> ApprovalRun(event.event) == run)
    ensures ApplyEvent(a, event, i, Some(run)).Ok? ==>
            Alike(ApplyEvent(a, event, i, Some(run)).value, ApplyEvent(b, event, j, None).value)
  {
  }

  /**
   Validation is exact: on a foldable log it accepts a batch if and only if the log extended by the
   batch folds and every approval event of the batch is of the validated run.
   */
  lemma {:induction false} ValidationIsExact(log: seq<EventRecord>, run: string, batch: seq<EventRecord>)
    requires Fold(log).Ok?
    ensures Transition(Fold(log).value, run, Payloads(batch)).Ok? <==> Fold(log + batch).Ok? && OfRun(run, batch)
    ensures Transition(Fold(log).value, run, Payloads(batch)).Ok? ==>
            Alike(Transition(Fold(log).value, run, Payloads(batch)).value, Fold(log + batch).value)
    decreases |batch|
  {
    if batch == [] {
      assert log + batch == log;
    } else {
      var front, last := batch[..|batch| - 1], batch[|batch| - 1];
      ValidationIsExact(log, run, front);
      assert Payloads(batch)[..|batch| - 1] == Payloads(front);
      assert log + batch == (log + front) + [last];
      FoldSnoc(log + front, last);
      OfRunSnoc(run, front, last);
      assert front + [last] == batch;
      var before := Transition(Fold(log).value, run, Payloads(front));
      if before.Ok? {
        AlikeStep(before.value, Fold(log + front).value, last.payload, |batch| - 1, last.sequence, run);
      }
    }
  }

  lemma OfRunSnoc(run: string, batch: seq<EventRecord>, rec: EventRecord)
    ensures OfRun(run, batch + [rec]) <==>
            OfRun(run, batch) && (rec.payload.Approval? ==> ApprovalRun(rec.payload.event) == run)
  {
    var longer := batch + [rec];
    assert longer[|batch|] == rec && forall i | 0 <= i < |batch| :: longer[i] == batch[i];
    if OfRun(run, longer) {
      assert rec.payload.Approval? ==> ApprovalRun(longer[|batch|].payload.event) == run;
    }
  }

  datatype Batch = Batch(run: string, records: seq<EventRecord>)

  /** A commit folds the log, validates the batch against it, and appends the batch or nothing. */
  function Commit(log: seq<EventRecord>, batch: Batch): seq<EventRecord> {
    if Fold(log).Ok? && Transition(Fold(log).value, batch.run, Payloads(batch.records)).Ok?
    then log + batch.records
    else log
  }

  function CommitAll(batches: seq<Batch>): seq<EventRecord> {
    if batches == [] then [] else Commit(CommitAll(batches[..|batches| - 1]), batches[|batches| - 1])
  }

  /** Any history of commits, accepted and refused, leaves a log that folds. */
  lemma {:induction false} CommittedHistoryFolds(batches: seq<Batch>)
    ensures Fold(CommitAll(batches)).Ok?
  {
    if batches != [] {
      var before, last := CommitAll(batches[..|batches| - 1]), batches[|batches| - 1];
      CommittedHistoryFolds(batches[..|batches| - 1]);
      ValidationIsExact(before, last.run, last.records);
    }
  }

  // What a foldable log says about its approvals.

  predicate IsRequest(rec: EventRecord, id: string) {
    rec.payload.Approval? && rec.payload.event.Requested? && rec.payload.event.request.id == id
  }

  predicate IsResolution(rec: EventRecord, id: string) {
    rec.payload.Approval? && rec.payload.event.Resolved? && rec.payload.event.resolution.approvalId == id
  }

  predicate HasRequest(log: seq<EventRecord>, id: string) {
    exists i :: 0 <= i < |log| && IsRequest(log[i], id)
  }

  predicate HasResolution(log: seq<EventRecord>, id: string) {
    exists i :: 0 <= i < |log| && IsResolution(log[i], id)
  }

  ghost predicate AtMostOnce(log: seq<EventRecord>) {
    && (forall i, j, id | 0 <= i < j < |log| && IsRequest(log[i], id) :: !IsRequest(log[j], id))
    && (forall i, j, id | 0 <= i < j < |log| && IsResolution(log[i], id) :: !IsResolution(log[j], id))
  }

  /** `entry` is what some request record of the log says. */
  predicate FromLog(log: seq<EventRecord>, id: string, entry: (nat, ApprovalRequest)) {
    exists i :: 0 <= i < |log| && IsRequest(log[i], id) && entry == (log[i].sequence, log[i].payload.event.request)
  }

  ghost predicate Reads(l: Lifecycle, log: seq<EventRecord>) {
    && (forall id :: id in l.pending <==> HasRequest(log, id) && !HasResolution(log, id))
    && (forall id :: id in l.resolved <==> HasResolution(log, id))
    && (forall id | HasResolution(log, id) :: HasRequest(log, id))
    && (forall id | id in l.pending :: FromLog(log, id, l.pending[id]))
  }

  lemma HasSnoc(log: seq<EventRecord>, rec: EventRecord, id: string)
    ensures HasRequest(log + [rec], id) <==> HasRequest(log, id) || IsRequest(rec, id)
    ensures HasResolution(log + [rec], id) <==> HasResolution(log, id) || IsResolution(rec, id)
  {
    var longer := log + [rec];
    assert longer[|log|] == rec && forall i | 0 <= i < |log| :: longer[i] == log[i];
    if HasRequest(log, id) {
      var i :| 0 <= i < |log| && IsRequest(log[i], id);
      assert IsRequest(longer[i], id);
    }
    if HasResolution(log, id) {
      var i :| 0 <= i < |log| && IsResolution(log[i], id);
      assert IsResolution(longer[i], id);
    }
  }

  lemma FromLogSnoc(log: seq<EventRecord>, rec: EventRecord, id: string, entry: (nat, ApprovalRequest))
    ensures FromLog(log, id, entry) ==> FromLog(log + [rec], id, entry)
    ensures IsRequest(rec, id) ==> FromLog(log + [rec], id, (rec.sequence, rec.payload.event.request))
  {
    var longer := log + [rec];
    assert longer[|log|] == rec;
    if FromLog(log, id, entry) {
      var i :| 0 <= i < |log| && IsRequest(log[i], id) && entry == (log[i].sequence, log[i].payload.event.request);
      assert longer[i] == log[i];
    }
  }

  lemma ApplyReads(l: Lifecycle, log: seq<EventRecord>, rec: EventRecord)
    requires Reads(l, log) && ApplyEvent(l, rec.payload, rec.sequence, None).Ok?
    ensures Reads(ApplyEvent(l, rec.payload, rec.sequence, None).value, log + [rec])
  {
    var after := ApplyEvent(l, rec.payload, rec.sequence, None).value;
    forall id
      ensures id in after.pending <==> HasRequest(log + [rec], id) && !HasResolution(log + [rec], id)
      ensures id in after.resolved <==> HasResolution(log + [rec], id)
      ensures HasResolution(log + [rec], id) ==> HasRequest(log + [rec], id)
      ensures id in after.pending ==> FromLog(log + [rec], id, after.pending[id])
    {
      HasSnoc(log, rec, id);
      if id in l.pending { FromLogSnoc(log, rec, id, l.pending[id]); }
      if IsRequest(rec, id) { FromLogSnoc(log, rec, id, (rec.sequence, rec.payload.event.request)); }
    }
  }

  lemma ApplyOnce(l: Lifecycle, log: seq<EventRecord>, rec: EventRecord)
    requires Reads(l, log) && AtMostOnce(log) && ApplyEvent(l, rec.payload, rec.sequence, None).Ok?
    ensures AtMostOnce(log + [rec])
  {
    var longer := log + [rec];
    forall i, j, id | 0 <= i < j < |longer| && IsRequest(longer[i], id) ensures !IsRequest(longer[j], id) {
      assert longer[i] == log[i];
      if j == |log| { assert HasRequest(log, id); } else { assert longer[j] == log[j]; }
    }
    forall i, j, id | 0 <= i < j < |longer| && IsResolution(longer[i], id) ensures !IsResolution(longer[j], id) {
      assert longer[i] == log[i];
      if j == |log| { assert HasResolution(log, id); } else { assert longer[j] == log[j]; }
    }
  }

  /** A fold reads its log: what is pending, what is resolved, and each id at most once. */
  lemma {:induction false} FoldReadsTheLog(log: seq<EventRecord>)
    requires Fold(log).Ok?
    ensures Reads(Fold(log).value, log) && AtMostOnce(log)
  {
    if log != [] {
      var front, last := log[..|log| - 1], log[|log| - 1];
      FoldReadsTheLog(front);
      assert log == front + [last];
      ApplyReads(Fold(front).value, front, last);
      ApplyOnce(Fold(front).value, front, last);
    }
  }

  /** The resolution `later` answers the request `earlier`: same approval, same run, same tool call. */
  predicate Resolves(later: EventRecord, earlier: EventRecord) {
    && later.payload.Approval? && later.payload.event.Resolved?
    && earlier.payload.Approval? && earlier.payload.event.Requested?
    && var (resolution, request) := (later.payload.event.resolution, earlier.payload.event.request);
    && resolution.approvalId == request.id && resolution.runId == request.runId
    && resolution.toolCallId == request.toolCallId
  }

  predicate ResolvesEarlier(log: seq<EventRecord>, i: int)
    requires 0 <= i < |log|
  {
    exists j :: 0 <= j < i && Resolves(log[i], log[j])
  }

  predicate IsAnyResolution(rec: EventRecord) {
    rec.payload.Approval? && rec.payload.event.Resolved?
  }

  /** No approval is requested or resolved twice, and each resolution answers an earlier request. */
  ghost predicate WellOrdered(log: seq<EventRecord>) {
    AtMostOnce(log) && forall i | 0 <= i < |log| && IsAnyResolution(log[i]) :: ResolvesEarlier(log, i)
  }

  /** Whether `rec` may follow a log. */
  predicate MayFollow(log: seq<EventRecord>, rec: EventRecord) {
    if !rec.payload.Approval? then true
    else
      match rec.payload.event
      case Requested(request) => !HasRequest(log, request.id)
      case Resolved(resolution) =>
        !HasResolution(log, resolution.approvalId) && exists j :: 0 <= j < |log| && Resolves(rec, log[j])
  }

  lemma OnceSnoc(log: seq<EventRecord>, rec: EventRecord)
    ensures AtMostOnce(log + [rec]) <==>
            && AtMostOnce(log)
            && (forall id | IsRequest(rec, id) :: !HasRequest(log, id))
            && (forall id | IsResolution(rec, id) :: !HasResolution(log, id))
  {
    var longer := log + [rec];
    assert longer[|log|] == rec && forall i | 0 <= i < |log| :: longer[i] == log[i];
    hide IsRequest, IsResolution;
    if AtMostOnce(longer) {
      forall i, j, id | 0 <= i < j < |log| && IsRequest(log[i], id) ensures !IsRequest(log[j], id) {
        assert IsRequest(longer[i], id) && longer[j] == log[j];
      }
      forall i, j, id | 0 <= i < j < |log| && IsResolution(log[i], id) ensures !IsResolution(log[j], id) {
        assert IsResolution(longer[i], id) && longer[j] == log[j];
      }
      forall id | IsRequest(rec, id) ensures !HasRequest(log, id) {
        forall i | 0 <= i < |log| ensures !IsRequest(log[i], id) { assert longer[i] == log[i] && longer[|log|] == rec; }
      }
      forall id | IsResolution(rec, id) ensures !HasResolution(log, id) {
        forall i | 0 <= i < |log| ensures !IsResolution(log[i], id) { assert longer[i] == log[i] && longer[|log|] == rec; }
      }
    }
  }

  lemma WellOrderedSnoc(log: seq<EventRecord>, rec: EventRecord)
    ensures WellOrdered(log + [rec]) <==> WellOrdered(log) && MayFollow(log, rec)
  {
    var longer := log + [rec];
    OnceSnoc(log, rec);
    assert longer[|log|] == rec && forall i | 0 <= i < |log| :: longer[i] == log[i];
    forall i | 0 <= i < |log| ensures ResolvesEarlier(longer, i) <==> ResolvesEarlier(log, i) {
      if j :| 0 <= j < i && Resolves(log[i], log[j]) { assert Resolves(longer[i], longer[j]); }
      if j :| 0 <= j < i && Resolves(longer[i], longer[j]) { assert Resolves(log[i], log[j]); }
    }
    ResolvesLast(log, rec);
    OnceRead(log, rec);
    hide AtMostOnce, HasRequest, HasResolution, Resolves, ResolvesEarlier, IsRequest, IsResolution;
    if WellOrdered(longer) {
      forall i | 0 <= i < |log| && IsAnyResolution(log[i]) ensures ResolvesEarlier(log, i) {
        assert ResolvesEarlier(longer, i);
      }
      assert IsAnyResolution(rec) ==> ResolvesEarlier(longer, |log|);
    }
  }

  lemma ResolvesLast(log: seq<EventRecord>, rec: EventRecord)
    ensures ResolvesEarlier(log + [rec], |log|) <==> exists j :: 0 <= j < |log| && Resolves(rec, log[j])
  {
    var longer := log + [rec];
    assert longer[|log|] == rec;
    hide Resolves;
    if j :| 0 <= j < |log| && Resolves(rec, log[j]) { assert Resolves(longer[|log|], longer[j]); }
    if j :| 0 <= j < |log| && Resolves(longer[|log|], longer[j]) { assert Resolves(rec, log[j]); }
  }

  lemma OnceRead(log: seq<EventRecord>, rec: EventRecord)
    ensures (forall id | IsRequest(rec, id) :: !HasRequest(log, id)) <==>
            (rec.payload.Approval? && rec.payload.event.Requested? ==> !HasRequest(log, rec.payload.event.request.id))
    ensures (forall id | IsResolution(rec, id) :: !HasResolution(log, id)) <==>
            (IsAnyResolution(rec) ==> !HasResolution(log, rec.payload.event.resolution.approvalId))
  {
    hide HasRequest, HasResolution;
    if rec.payload.Approval? && rec.payload.event.Requested? { assert IsRequest(rec, rec.payload.event.request.id); }
    if IsAnyResolution(rec) { assert IsResolution(rec, rec.payload.event.resolution.approvalId); }
  }

  /** The fold accepts a record exactly when it may follow the log. */
  lemma ApplyExactly(l: Lifecycle, log: seq<EventRecord>, rec: EventRecord)
    requires Reads(l, log) && AtMostOnce(log)
    ensures ApplyEvent(l, rec.payload, rec.sequence, None).Ok? <==> MayFollow(log, rec)
  {
    if IsAnyResolution(rec) {
      var resolution := rec.payload.event.resolution;
      var id := resolution.approvalId;
      if id in l.pending {
        assert FromLog(log, id, l.pending[id]);
        var i :| 0 <= i < |log| && IsRequest(log[i], id) && l.pending[id] == (log[i].sequence, log[i].payload.event.request);
        forall j | 0 <= j < |log| && Resolves(rec, log[j]) ensures j == i {
          assert IsRequest(log[j], id);
        }
        assert Resolves(rec, log[i]) <==>
               l.pending[id].1.runId == resolution.runId && l.pending[id].1.toolCallId == resolution.toolCallId;
      } else if j :| 0 <= j < |log| && Resolves(rec, log[j]) {
        assert IsRequest(log[j], id) && HasRequest(log, id);
      }
    }
  }

  /**
   Which logs fold: exactly those in which no approval is requested or resolved twice and each resolution
   answers an earlier request of the same run and tool call.
   */
  lemma {:induction false} FoldsExactlyWhenWellOrdered(log: seq<EventRecord>)
    ensures Fold(log).Ok? <==> WellOrdered(log)
  {
    if log != [] {
      var front, last := log[..|log| - 1], log[|log| - 1];
      FoldsExactlyWhenWellOrdered(front);
      assert log == front + [last];
      WellOrderedSnoc(front, last);
      hide WellOrdered, MayFollow, AtMostOnce, Reads, ApplyEvent;
      if Fold(front).Ok? {
        FoldReadsTheLog(front);
        ApplyExactly(Fold(front).value, front, last);
      }
    }
  }

  datatype Lookup = Pending(request: ApprovalRequest) | AlreadyDecided | NotFound

  function LookupIn(l: Lifecycle, id: string): Lookup {
    if id in l.pending then Pending(l.pending[id].1)
    else if id in l.resolved then AlreadyDecided
    else NotFound
  }

  /** Looking an approval up answers from the log alone. */
  lemma {:induction false} LookupAgreesWithTheLog(log: seq<EventRecord>, id: string)
    requires Fold(log).Ok?
    ensures var l := Fold(log).value;
            && l.pending.Keys !! l.resolved
            && (LookupIn(l, id).NotFound? <==> !HasRequest(log, id))
            && (LookupIn(l, id).AlreadyDecided? <==> HasResolution(log, id))
            && (forall request :: LookupIn(l, id) == Pending(request) <==>
                  !HasResolution(log, id) &&
                  exists i :: 0 <= i < |log| && IsRequest(log[i], id) && log[i].payload.event.request == request)
  {
    FoldReadsTheLog(log);
    var l := Fold(log).value;
    forall request
      ensures LookupIn(l, id) == Pending(request) <==>
              !HasResolution(log, id) &&
              exists i :: 0 <= i < |log| && IsRequest(log[i], id) && log[i].payload.event.request == request
    {
      if LookupIn(l, id) == Pending(request) {
        assert FromLog(log, id, l.pending[id]);
      }
      if i :| 0 <= i < |log| && IsRequest(log[i], id) && log[i].payload.event.request == request
              && !HasResolution(log, id)
      {
        assert HasRequest(log, id) && id in l.pending;
        assert FromLog(log, id, l.pending[id]);
        var j :| 0 <= j < |log| && IsRequest(log[j], id) && l.pending[id].1 == log[j].payload.event.request;
        assert i == j;
      }
    }
  }

  // Queries.

  datatype Query = Query(runId: Option<string>, approvalId: Option<string>)

  predicate Selects(q: Query, request: ApprovalRequest) {
    && (q.runId.Some? ==> request.runId == q.runId.value)
    && (q.approvalId.Some? ==> request.id == q.approvalId.value)
  }

  /** The record is a request that the query selects and that the whole log leaves unresolved. */
  predicate IsWanted(log: seq<EventRecord>, q: Query, rec: EventRecord) {
    && rec.payload.Approval? && rec.payload.event.Requested?
    && Selects(q, rec.payload.event.request)
    && !HasResolution(log, rec.payload.event.request.id)
  }

  /** The unresolved requests of the log that a query selects, reading the log backwards. */
  function NewestFirst(log: seq<EventRecord>, q: Query, n: nat): seq<(nat, ApprovalRequest)>
    requires n <= |log|
  {
    if n == 0 then []
    else
      (if IsWanted(log, q, log[n - 1]) then [(log[n - 1].sequence, log[n - 1].payload.event.request)] else [])
      + NewestFirst(log, q, n - 1)
  }

  function Requests(entries: seq<(nat, ApprovalRequest)>): seq<ApprovalRequest> {
    seq(|entries|, i requires 0 <= i < |entries| => entries[i].1)
  }

  /** A query asks for the request: it names its run and its approval, or leaves them open. */
  predicate AsksFor(q: Query, request: ApprovalRequest) {
    && (q.runId == None || q.runId == Some(request.runId))
    && (q.approvalId == None || q.approvalId == Some(request.id))
  }

  /** The answer to a query holds exactly the requests of the log that it asks for and that nothing has resolved. */
  lemma QueriesSelect(log: seq<EventRecord>, q: Query, request: ApprovalRequest)
    ensures request in Requests(NewestFirst(log, q, |log|)) <==>
            && AsksFor(q, request) && !HasResolution(log, request.id)
            && exists i :: 0 <= i < |log| && log[i].payload == Approval(Requested(request))
  {
    var entries := NewestFirst(log, q, |log|);
    hide HasResolution;
    if request in Requests(entries) {
      var k :| 0 <= k < |entries| && entries[k].1 == request;
      assert entries[k] in entries;
      NewestFirstMembers(log, q, |log|, entries[k]);
      var i :| 0 <= i < |log| && IsWanted(log, q, log[i]) && entries[k] == (log[i].sequence, log[i].payload.event.request);
      assert log[i].payload == Approval(Requested(request));
    }
    if AsksFor(q, request) && !HasResolution(log, request.id) {
      if i :| 0 <= i < |log| && log[i].payload == Approval(Requested(request)) {
        NewestFirstMembers(log, q, |log|, (log[i].sequence, request));
        assert IsWanted(log, q, log[i]);
        var k :| 0 <= k < |entries| && entries[k] == (log[i].sequence, request);
        assert Requests(entries)[k] == request;
      }
    }
  }

  // Why an event is refused.

  /** The fault that an event of the log's session has, as the log tells it; `None` for one that may follow. */
  ghost function FaultIn(log: seq<EventRecord>, event: ApprovalEvent, run: Option<string>): Option<Fault> {
    match event
    case Requested(request) =>
      if run.Some? && run.value != request.runId then Some(RequestOutsideRun)
      else if HasResolution(log, request.id) then Some(RequestAlreadyResolved)
      else if HasRequest(log, request.id) then Some(AlreadyPending)
      else None
    case Resolved(resolution) =>
      if run.Some? && run.value != resolution.runId then Some(ResolutionOutsideRun)
      else if HasResolution(log, resolution.approvalId) then Some(AlreadyResolved)
      else if !HasRequest(log, resolution.approvalId) then Some(NoPendingRequest)
      else if RequestedBy(log, resolution.approvalId, resolution.runId, resolution.toolCallId) then None
      else if exists tool :: RequestedBy(log, resolution.approvalId, resolution.runId, tool) then Some(ToolCallMismatch)
      else Some(RunMismatch)
  }

  ghost predicate RequestedBy(log: seq<EventRecord>, id: string, run: string, tool: Option<string>) {
    exists i ::
      && 0 <= i < |log| && IsRequest(log[i], id)
      && log[i].payload.event.request.runId == run && log[i].payload.event.request.toolCallId == tool
  }

  /** An approval event is refused exactly for the fault that the log finds in it, and under its own approval. */
  lemma FaultsAreRead(log: seq<EventRecord>, event: ApprovalEvent, sequence: nat, run: Option<string>)
    requires Fold(log).Ok?
    ensures var id := if event.Requested? then event.request.id else event.resolution.approvalId;
            match FaultIn(log, event, run) {
              case None => ApplyApproval(Fold(log).value, event, sequence, run).Ok?
              case Some(fault) => ApplyApproval(Fold(log).value, event, sequence, run) == Err(LifecycleError(id, fault))
            }
  {
    FoldReadsTheLog(log);
    var l := Fold(log).value;
    hide Fold;
    if event.Resolved? && event.resolution.approvalId in l.pending {
      var id := event.resolution.approvalId;
      assert FromLog(log, id, l.pending[id]);
      PendingIsRequested(log, l, id);
      assert RequestedBy(log, id, l.pending[id].1.runId, l.pending[id].1.toolCallId);
    }
    hide HasRequest, HasResolution, FromLog, AtMostOnce, IsRequest, RequestedBy;
  }

  lemma PendingIsRequested(log: seq<EventRecord>, l: Lifecycle, id: string)
    requires id in l.pending && FromLog(log, id, l.pending[id]) && AtMostOnce(log)
    ensures forall run, tool :: RequestedBy(log, id, run, tool) <==>
              l.pending[id].1.runId == run && l.pending[id].1.toolCallId == tool
  {
    var i :| 0 <= i < |log| && IsRequest(log[i], id) && l.pending[id] == (log[i].sequence, log[i].payload.event.request);
    forall j | 0 <= j < |log| && IsRequest(log[j], id) ensures j == i {}
  }

  predicate Increasing(log: seq<EventRecord>) {
    forall i, j | 0 <= i < j < |log| :: log[i].sequence < log[j].sequence
  }

  predicate Descending(entries: seq<(nat, ApprovalRequest)>) {
    forall i, j | 0 <= i < j < |entries| :: entries[i].0 > entries[j].0
  }

  function InsertNewest(entries: seq<(nat, ApprovalRequest)>, e: (nat, ApprovalRequest)): seq<(nat, ApprovalRequest)> {
    if entries == [] || entries[0].0 < e.0 then [e] + entries else [entries[0]] + InsertNewest(entries[1..], e)
  }

  lemma {:induction false} InsertNewestSorts(entries: seq<(nat, ApprovalRequest)>, e: (nat, ApprovalRequest))
    requires Descending(entries) && forall x | x in entries :: x.0 != e.0
    ensures Descending(InsertNewest(entries, e))
    ensures forall x :: x in InsertNewest(entries, e) <==> x in entries || x == e
  {
    if entries != [] && entries[0].0 > e.0 {
      var rest := InsertNewest(entries[1..], e);
      InsertNewestSorts(entries[1..], e);
      assert entries == [entries[0]] + entries[1..];
      forall j | 0 <= j < |rest| ensures entries[0].0 > rest[j].0 {
        assert rest[j] in rest;
      }
    } else if entries != [] {
      assert entries[0] in entries;
    }
  }

  /** Two descending lists with the same elements are equal. */
  lemma {:induction false} DescendingUnique(a: seq<(nat, ApprovalRequest)>, b: seq<(nat, ApprovalRequest)>)
    requires Descending(a) && Descending(b) && forall x :: x in a <==> x in b
    ensures a == b
  {
    assert a != [] ==> a[0] in a;
    assert b != [] ==> b[0] in b;
    if a != [] && b != [] {
      HeadIsMax(a);
      HeadIsMax(b);
      assert a[0] in b && b[0] in a;
      assert a[0] == b[0];
      forall x ensures x in a[1..] <==> x in b[1..] {
        assert a == [a[0]] + a[1..] && b == [b[0]] + b[1..];
        if x in a[1..] { assert x in a; }
        if x in b[1..] { assert x in b; }
      }
      DescendingUnique(a[1..], b[1..]);
    }
  }

  lemma HeadIsMax(a: seq<(nat, ApprovalRequest)>)
    requires Descending(a) && a != []
    ensures forall x | x in a :: x == a[0] || x.0 < a[0].0
    ensures a[0] !in a[1..]
  {
  }

  lemma {:induction false} NewestFirstMembers(log: seq<EventRecord>, q: Query, n: nat, x: (nat, ApprovalRequest))
    requires n <= |log|
    ensures x in NewestFirst(log, q, n) <==>
            exists i :: 0 <= i < n && IsWanted(log, q, log[i]) && x == (log[i].sequence, log[i].payload.event.request)
  {
    if n > 0 { NewestFirstMembers(log, q, n - 1, x); }
  }

  lemma {:induction false} NewestFirstDescends(log: seq<EventRecord>, q: Query, n: nat)
    requires n <= |log| && Increasing(log)
    ensures Descending(NewestFirst(log, q, n))
  {
    if n > 0 {
      NewestFirstDescends(log, q, n - 1);
      var rest := NewestFirst(log, q, n - 1);
      forall j | 0 <= j < |rest| ensures rest[j].0 < log[n - 1].sequence {
        assert rest[j] in rest;
        NewestFirstMembers(log, q, n - 1, rest[j]);
      }
    }
  }

  /** The pending entries that a query selects are the wanted requests of the log. */
  lemma WantedIsPending(log: seq<EventRecord>, q: Query, x: (nat, ApprovalRequest))
    requires Fold(log).Ok?
    ensures x in NewestFirst(log, q, |log|) <==>
            exists id :: id in Fold(log).value.pending && Fold(log).value.pending[id] == x && Selects(q, x.1)
  {
    FoldReadsTheLog(log);
    NewestFirstMembers(log, q, |log|, x);
    var l := Fold(log).value;
    if i :| 0 <= i < |log| && IsWanted(log, q, log[i]) && x == (log[i].sequence, log[i].payload.event.request) {
      var id := x.1.id;
      assert IsRequest(log[i], id) && HasRequest(log, id) && id in l.pending;
      assert FromLog(log, id, l.pending[id]);
      var j :| 0 <= j < |log| && IsRequest(log[j], id) && l.pending[id] == (log[j].sequence, log[j].payload.event.request);
      assert i == j;
    }
    if id :| id in l.pending && l.pending[id] == x && Selects(q, x.1) {
      assert FromLog(log, id, x);
      var i :| 0 <= i < |log| && IsRequest(log[i], id) && x == (log[i].sequence, log[i].payload.event.request);
      assert IsWanted(log, q, log[i]);
    }
  }

  /** Distinct pending approvals come from distinct records. */
  lemma PendingSequencesDiffer(log: seq<EventRecord>, a: string, b: string)
    requires Fold(log).Ok? && Increasing(log) && a != b
    requires a in Fold(log).value.pending && b in Fold(log).value.pending
    ensures Fold(log).value.pending[a].0 != Fold(log).value.pending[b].0
  {
    FoldReadsTheLog(log);
    var l := Fold(log).value;
    assert FromLog(log, a, l.pending[a]) && FromLog(log, b, l.pending[b]);
  }

  /** The lifecycle object. */
  class ApprovalLifecycle {
    var pending: map<string, (nat, ApprovalRequest)>
    var resolved: set<string>

    constructor (initial: Lifecycle)
      ensures State() == initial
    {
      pending, resolved := initial.pending, initial.resolved;
    }

    function State(): Lifecycle
      reads this
    {
      Lifecycle(pending, resolved)
    }

    method ApplyDaemonEvent(event: DaemonEvent, sequence: nat, run: Option<string>)
      returns (r: Result<(), LifecycleError>)
      modifies this
      ensures match ApplyEvent(old(State()), event, sequence, run)
              case Ok(after) => r == Ok(()) && State() == after
              case Err(e) => r == Err(e) && State() == old(State())
    {
      if !event.Approval? {
        return Ok(());
      }
      match event.event {
        case Requested(request) =>
          if run.Some? && request.runId != run.value {
            return Err(LifecycleError(request.id, RequestOutsideRun));
          }
          if request.id in pending {
            return Err(LifecycleError(request.id, AlreadyPending));
          }
          if request.id in resolved {
            return Err(LifecycleError(request.id, RequestAlreadyResolved));
          }
          pending := pending[request.id := (sequence, request)];
        case Resolved(resolution) =>
          var id := resolution.approvalId;
          if run.Some? && resolution.runId != run.value {
            return Err(LifecycleError(id, ResolutionOutsideRun));
          }
          if id in resolved {
            return Err(LifecycleError(id, AlreadyResolved));
          }
          if id !in pending {
            return Err(LifecycleError(id, NoPendingRequest));
          }
          if pending[id].1.runId != resolution.runId {
            return Err(LifecycleError(id, RunMismatch));
          }
          if pending[id].1.toolCallId != resolution.toolCallId {
            return Err(LifecycleError(id, ToolCallMismatch));
          }
          pending := pending - {id};
          resolved := resolved + {id};
      }
      r := Ok(());
    }

    /** `fold_session_records`, into a fresh object. */
    method FoldSessionRecords(log: seq<EventRecord>) returns (r: Result<(), LifecycleError>)
      requires State() == NoApprovals
      modifies this
      ensures match Fold(log)
              case Ok(l) => r == Ok(()) && State() == l
              case Err(e) => r == Err(e)
    {
      for i := 0 to |log|
        invariant Fold(log[..i]) == Ok(State())
      {
        assert log[..i + 1] == log[..i] + [log[i]];
        FoldSnoc(log[..i], log[i]);
        var applied := ApplyDaemonEvent(log[i].payload, log[i].sequence, None);
        if applied.Err? {
          FoldFails(log, i + 1);
          return applied;
        }
      }
      assert log[..|log|] == log;
      r := Ok(());
    }

    /** Validates a batch on a copy, leaving this object alone. */
    method ValidateRunTransition(run: string, events: seq<DaemonEvent>) returns (r: Result<(), LifecycleError>)
      ensures match Transition(State(), run, events)
              case Ok(_) => r == Ok(())
              case Err(e) => r == Err(e)
    {
      hide ApplyEvent, ApplyApproval;
      var start := State();
      var copy := new ApprovalLifecycle(start);
      for i := 0 to |events|
        invariant fresh(copy) && Transition(start, run, events[..i]) == Ok(copy.State())
      {
        TransitionSnoc(start, run, events[..i], events[i]);
        assert events[..i + 1] == events[..i] + [events[i]];
        var applied := copy.ApplyDaemonEvent(events[i], i, Some(run));
        if applied.Err? {
          TransitionFails(start, run, events, i + 1);
          return applied;
        }
      }
      assert events[..|events|] == events;
      r := Ok(());
    }

    /** The unresolved requests of the folded log that the query selects, newest first. */
    method ApprovalsForQuery(q: Query, ghost log: seq<EventRecord>) returns (r: seq<ApprovalRequest>)
      requires Fold(log) == Ok(State()) && Increasing(log)
      ensures r == Requests(NewestFirst(log, q, |log|))
    {
      var entries: seq<(nat, ApprovalRequest)> := [];
      var rest := pending.Keys;
      while rest != {}
        invariant rest <= pending.Keys && Descending(entries)
        invariant forall x :: x in entries <==>
                    exists id :: id in pending && id !in rest && pending[id] == x && Selects(q, x.1)
        decreases |rest|
      {
        var id :| id in rest;
        rest := rest - {id};
        if Selects(q, pending[id].1) {
          forall x | x in entries ensures x.0 != pending[id].0 {
            var other :| other in pending && other !in rest + {id} && pending[other] == x;
            PendingSequencesDiffer(log, other, id);
          }
          InsertNewestSorts(entries, pending[id]);
          entries := InsertNewest(entries, pending[id]);
        }
      }
      forall x ensures x in entries <==> x in NewestFirst(log, q, |log|) {
        WantedIsPending(log, q, x);
      }
      NewestFirstDescends(log, q, |log|);
      DescendingUnique(entries, NewestFirst(log, q, |log|));
      r := Requests(entries);
    }
  }

  lemma {:induction false} FoldFails(log: seq<EventRecord>, n: nat)
    requires n <= |log| && Fold(log[..n]).Err?
    ensures Fold(log) == Fold(log[..n])
    decreases |log|
  {
    if n < |log| {
      assert log[..|log| - 1][..n] == log[..n];
      FoldFails(log[..|log| - 1], n);
    } else {
      assert log[..n] == log;
    }
  }

  lemma TransitionSnoc(l: Lifecycle, run: string, events: seq<DaemonEvent>, e: DaemonEvent)
    ensures Transition(l, run, events + [e]) ==
            match Transition(l, run, events)
            case Err(error) => Err(error)
            case Ok(before) => ApplyEvent(before, e, |events|, Some(run))
  {
    assert (events + [e])[..|events|] == events;
  }

  lemma {:induction false} TransitionFails(l: Lifecycle, run: string, events: seq<DaemonEvent>, n: nat)
    requires n <= |events| && Transition(l, run, events[..n]).Err?
    ensures Transition(l, run, events) == Transition(l, run, events[..n])
    decreases |events|
  {
    if n < |events| {
      assert events[..|events| - 1][..n] == events[..n];
      TransitionFails(l, run, events[..|events| - 1], n);
    } else {
      assert events[..n] == events;
    }
  }
}
