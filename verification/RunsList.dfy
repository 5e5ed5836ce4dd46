/** The cursor-paged list of native runs (crates/ta-store/src/runs_list.rs). */
module RunsList {
  import opened Prelude
  import opened Numerals

  const NATIVE_RUN_LIST_MAX_LIMIT: nat := 200

  datatype Harness = UnknownHarness | Native | Acp | CodexAppServer

  datatype Status = Queued | Running | WaitingForApproval | Completed | Failed | BudgetExceeded | Cancelled

  datatype Source = FromUser | NativeSubagent(parentRunId: string) | Forked(parentRunId: string)

  datatype Run = Run(
    id: string, sessionId: string, harness: Harness, status: Status, source: Source, startedAtMs: Option<nat>)

  datatype RunFilter = RunFilter(
    harness: Option<seq<Harness>>, status: Option<seq<Status>>, parentRunId: Option<string>)

  datatype Cursor = Cursor(startedAtMs: nat, runId: string)

  datatype Query = Query(sessionId: string, filter: RunFilter, before: Option<Cursor>, limit: nat)

  datatype Page = Page(runs: seq<Run>, nextCursor: Option<Cursor>)

  /** What the wire types guarantee of a stored run: a non-blank id and a 64-bit start. */
  predicate WellFormed(run: Run) {
    !IsBlank(run.id) && StartOf(run) <= U64_MAX
  }

  // The cursor codec.

  function Encode(c: Cursor): string {
    Decimal(c.startedAtMs) + ":" + c.runId
  }

  /** `split_once(':')` */
  function SplitColon(s: string): Option<(string, string)> {
    if s == [] then None
    else if s[0] == ':' then Some(("", s[1..]))
    else
      match SplitColon(s[1..])
      case None => None
      case Some((before, after)) => Some(([s[0]] + before, after))
  }

  /** `parse::<u64>()`: an optional plus sign, then digits, within range. */
  function ParseU64(s: string): Option<nat> {
    var digits := if s != [] && s[0] == '+' then s[1..] else s;
    if digits != [] && (forall c | c in digits :: IsDigit(c)) && DecimalValue(digits) <= U64_MAX
    then Some(DecimalValue(digits))
    else None
  }

  function Decode(s: string): Option<Cursor> {
    match SplitColon(s)
    case None => None
    case Some((start, id)) =>
      var n := ParseU64(start);
      if n.None? || IsBlank(id) then None else Some(Cursor(n.value, id))
  }

  lemma {:induction false} SplitDigits(digits: string, rest: string)
    requires forall c | c in digits :: IsDigit(c)
    ensures SplitColon(digits + ":" + rest) == Some((digits, rest))
  {
    var s := digits + ":" + rest;
    if digits == [] {
      assert s[1..] == rest;
    } else {
      SplitDigits(digits[1..], rest);
      assert s[1..] == digits[1..] + ":" + rest;
      assert s[0] == digits[0] && IsDigit(digits[0]);
      assert [digits[0]] + digits[1..] == digits;
    }
  }

  /** A cursor survives its trip through the client as a string, whatever characters its run id has. */
  lemma CursorRoundTrip(c: Cursor)
    requires c.startedAtMs <= U64_MAX
    ensures Decode(Encode(c)) == if IsBlank(c.runId) then None else Some(c)
  {
    SplitDigits(Decimal(c.startedAtMs), c.runId);
    DecimalRoundTrip(c.startedAtMs);
    assert IsDigit(Decimal(c.startedAtMs)[0]);
  }

  /** A text is read as a cursor exactly if it is a way to write its 64-bit start, a colon and its non-blank id. */
  lemma DecodeIsExact(s: string, c: Cursor)
    ensures Decode(s) == Some(c) <==>
            && c.startedAtMs <= U64_MAX && !IsBlank(c.runId)
            && exists plus: bool, zeros: nat :: s == CursorText(c, plus, zeros)
  {
    hide DecimalValue, Decimal, IsBlank, IsDigit;
    if Decode(s) == Some(c) {
      var (start, id) := SplitColon(s).value;
      SplitRejoins(s);
      var digits := if start != [] && start[0] == '+' then start[1..] else start;
      var zeros := DigitsAreWritten(digits);
      var plus := start != [] && start[0] == '+';
      assert s == CursorText(c, plus, zeros);
    }
    if c.startedAtMs <= U64_MAX && !IsBlank(c.runId) {
      if plus: bool, zeros: nat :| s == CursorText(c, plus, zeros) { WrittenCursorIsRead(c, plus, zeros); }
    }
  }

  function CursorText(c: Cursor, plus: bool, zeros: nat): string {
    (if plus then "+" else "") + (Zeros(zeros) + Decimal(c.startedAtMs)) + ":" + c.runId
  }

  lemma {:induction false} SplitRejoins(s: string)
    ensures SplitColon(s).Some? ==> s == SplitColon(s).value.0 + ":" + SplitColon(s).value.1
  {
    if s != [] && s[0] != ':' {
      SplitRejoins(s[1..]);
      assert s == [s[0]] + s[1..];
    }
  }

  lemma {:induction false} SplitFirst(before: string, rest: string)
    requires ':' !in before
    ensures SplitColon(before + ":" + rest) == Some((before, rest))
  {
    var s := before + ":" + rest;
    if before == [] {
      assert s[1..] == rest;
    } else {
      SplitFirst(before[1..], rest);
      assert s[1..] == before[1..] + ":" + rest && [before[0]] + before[1..] == before;
    }
  }

  lemma WrittenCursorIsRead(c: Cursor, plus: bool, zeros: nat)
    requires c.startedAtMs <= U64_MAX && !IsBlank(c.runId)
    ensures Decode(CursorText(c, plus, zeros)) == Some(c)
  {
    var digits := Zeros(zeros) + Decimal(c.startedAtMs);
    ZerosInFront(zeros, Decimal(c.startedAtMs));
    DecimalRoundTrip(c.startedAtMs);
    assert digits != [] && digits[0] in digits && IsDigit(digits[0]);
    hide DecimalValue, Decimal, IsBlank, Zeros, IsDigit, ParseU64;
    var start := (if plus then "+" else "") + digits;
    StartIsRead(plus, digits);
    SplitFirst(start, c.runId);
    hide SplitColon;
  }

  lemma StartIsRead(plus: bool, digits: string)
    requires digits != [] && (forall c | c in digits :: IsDigit(c)) && DecimalValue(digits) <= U64_MAX
    ensures ':' !in (if plus then "+" else "") + digits
    ensures ParseU64((if plus then "+" else "") + digits) == Some(DecimalValue(digits))
  {
    var start := (if plus then "+" else "") + digits;
    assert digits[0] in digits;
    assert plus ==> start[1..] == digits;
    assert !plus ==> start == digits;
    hide DecimalValue;
  }

  // Matching and order.

  function ParentOf(run: Run): Option<string> {
    match run.source
    case NativeSubagent(parent) => Some(parent)
    case Forked(parent) => Some(parent)
    case FromUser => None
  }

  predicate Matches(run: Run, q: Query) {
    && run.sessionId == q.sessionId && run.harness == Native
    && (q.filter.harness.Some? && q.filter.harness.value != [] ==> run.harness in q.filter.harness.value)
    && (q.filter.status.Some? && q.filter.status.value != [] ==> run.status in q.filter.status.value)
    && (match q.filter.parentRunId
        case Some(parent) => ParentOf(run) == Some(parent)
        case None => ParentOf(run) == None)
  }

  function StartOf(run: Run): nat {
    if run.startedAtMs.Some? then run.startedAtMs.value else 0
  }

  /** `a` comes before `b` in the list: later start first, then larger id first. */
  predicate Precedes(a: Run, b: Run) {
    StartOf(a) > StartOf(b) || (StartOf(a) == StartOf(b) && StringLess(b.id, a.id))
  }

  predicate IsBeforeCursor(run: Run, c: Cursor) {
    StartOf(run) < c.startedAtMs || (StartOf(run) == c.startedAtMs && StringLess(run.id, c.runId))
  }

  function CursorOf(run: Run): Cursor {
    Cursor(StartOf(run), run.id)
  }

  predicate Sorted(runs: seq<Run>) {
    forall i, j | 0 <= i < j < |runs| :: Precedes(runs[i], runs[j])
  }

  predicate UniqueIds(runs: seq<Run>) {
    forall i, j | 0 <= i < j < |runs| :: runs[i].id != runs[j].id
  }

  lemma PrecedesTransitive(a: Run, b: Run, c: Run)
    requires Precedes(a, b) && Precedes(b, c)
    ensures Precedes(a, c)
  {
    if StartOf(a) == StartOf(b) == StartOf(c) { StringLessTransitive(c.id, b.id, a.id); }
  }

  lemma PrecedesTotal(a: Run, b: Run)
    requires a.id != b.id
    ensures Precedes(a, b) || Precedes(b, a)
  {
    StringLessTotal(a.id, b.id);
  }

  lemma PrecedesAsymmetric(a: Run, b: Run)
    requires Precedes(a, b)
    ensures !Precedes(b, a) && a != b
  {
    if StartOf(a) == StartOf(b) {
      StringLessIrreflexive(a.id);
      if StringLess(a.id, b.id) { StringLessTransitive(a.id, b.id, a.id); }
    }
  }

  /** Insertion into a sorted list, which stands for the library's stable sort. */
  function Insert(run: Run, sorted: seq<Run>): seq<Run> {
    if sorted == [] || Precedes(run, sorted[0]) then [run] + sorted else [sorted[0]] + Insert(run, sorted[1..])
  }

  function SortRuns(runs: seq<Run>): seq<Run> {
    if runs == [] then [] else Insert(runs[|runs| - 1], SortRuns(runs[..|runs| - 1]))
  }

  lemma {:induction false} InsertMembers(run: Run, sorted: seq<Run>)
    ensures multiset(Insert(run, sorted)) == multiset(sorted) + multiset{run}
    ensures |Insert(run, sorted)| == |sorted| + 1
  {
    if !(sorted == [] || Precedes(run, sorted[0])) {
      InsertMembers(run, sorted[1..]);
      assert sorted == [sorted[0]] + sorted[1..];
    }
  }

  lemma {:induction false} InsertSorts(run: Run, sorted: seq<Run>)
    requires Sorted(sorted) && forall x | x in sorted :: x.id != run.id
    ensures Sorted(Insert(run, sorted))
  {
    if sorted == [] {
    } else if Precedes(run, sorted[0]) {
      forall j | 0 < j < |sorted| ensures Precedes(run, sorted[j]) {
        PrecedesTransitive(run, sorted[0], sorted[j]);
      }
    } else {
      var rest := Insert(run, sorted[1..]);
      assert sorted[0] in sorted;
      PrecedesTotal(run, sorted[0]);
      InsertSorts(run, sorted[1..]);
      InsertMembers(run, sorted[1..]);
      forall j | 0 <= j < |rest| ensures Precedes(sorted[0], rest[j]) {
        assert rest[j] in multiset(rest);
        assert rest[j] == run || rest[j] in sorted[1..];
      }
    }
  }

  lemma SameIds(a: seq<Run>, b: seq<Run>, run: Run)
    requires multiset(a) == multiset(b) && forall i | 0 <= i < |b| :: b[i].id != run.id
    ensures forall x | x in a :: x.id != run.id
  {
    forall x | x in a ensures x.id != run.id {
      assert x in multiset(b);
    }
  }

  /** Sorting permutes. */
  lemma {:induction false} SortPermutes(runs: seq<Run>)
    ensures multiset(SortRuns(runs)) == multiset(runs)
  {
    if runs != [] {
      var front, last := runs[..|runs| - 1], runs[|runs| - 1];
      SortPermutes(front);
      InsertMembers(last, SortRuns(front));
      assert runs == front + [last];
    }
  }

  /** On unique ids, sorting yields the list in strictly descending order. */
  lemma {:induction false} SortSorts(runs: seq<Run>)
    requires UniqueIds(runs)
    ensures Sorted(SortRuns(runs))
  {
    hide Insert, Precedes;
    if runs != [] {
      var front, last := runs[..|runs| - 1], runs[|runs| - 1];
      SortSorts(front);
      SortPermutes(front);
      SameIds(SortRuns(front), front, last);
      InsertSorts(last, SortRuns(front));
    }
  }

  lemma SameHead(a: seq<Run>, b: seq<Run>)
    requires Sorted(a) && Sorted(b) && a != [] && b != []
    requires a[0] in b && b[0] in a
    ensures a[0] == b[0]
  {
    if a[0] != b[0] {
      var i :| 0 <= i < |b| && b[i] == a[0];
      var j :| 0 <= j < |a| && a[j] == b[0];
      PrecedesAsymmetric(a[0], b[0]);
    }
  }

  lemma TailMultiset(a: seq<Run>)
    requires a != []
    ensures multiset(a[1..]) == multiset(a) - multiset{a[0]}
    ensures a[0] in multiset(a)
  {
    assert a == [a[0]] + a[1..];
  }

  /** There is only one descending arrangement of a collection of runs. */
  lemma {:induction false} SortedUnique(a: seq<Run>, b: seq<Run>)
    requires Sorted(a) && Sorted(b) && multiset(a) == multiset(b)
    ensures a == b
  {
    hide Precedes;
    assert |a| == |multiset(a)| == |multiset(b)| == |b|;
    if a != [] {
      TailMultiset(a);
      TailMultiset(b);
      assert a[0] in multiset(b) && b[0] in multiset(a);
      SameHead(a, b);
      SortedUnique(a[1..], b[1..]);
      assert a == [a[0]] + a[1..] && b == [b[0]] + b[1..];
    }
  }

  // Pages.

  function Matching(runs: seq<Run>, q: Query): seq<Run> {
    Filter(run => Matches(run, q), runs)
  }

  /** The whole list that a query pages through. */
  function WholeList(runs: seq<Run>, q: Query): seq<Run> {
    SortRuns(Matching(runs, q))
  }

  predicate Wanted(run: Run, before: Option<Cursor>) {
    before.Some? ==> IsBeforeCursor(run, before.value)
  }

  /** A run that the query asks for, said in its fields. */
  predicate AskedFor(run: Run, q: Query) {
    && run.sessionId == q.sessionId && run.harness.Native?
    && (match q.filter.harness { case Some(kinds) => kinds == [] || Native in kinds case None => true })
    && (match q.filter.status { case Some(statuses) => statuses == [] || run.status in statuses case None => true })
    && match (q.filter.parentRunId, run.source) {
         case (Some(parent), NativeSubagent(of)) => of == parent
         case (Some(parent), Forked(of)) => of == parent
         case (None, FromUser) => true
         case _ => false
       }
  }

  /** The list holds exactly the runs asked for: without a parent, those that have none. */
  lemma ListHoldsWhatIsAskedFor(runs: seq<Run>, q: Query, run: Run)
    ensures run in WholeList(runs, q) <==> run in runs && AskedFor(run, q)
  {
    WholeListPermutes(runs, q);
    FilterMember(r => Matches(r, q), runs, run);
    assert run in WholeList(runs, q) <==> run in multiset(WholeList(runs, q));
    assert run in Matching(runs, q) <==> run in multiset(Matching(runs, q));
  }

  /** Started later, a run that has not started counting as the earliest; of two that started together, by larger id. */
  predicate NewerThan(a: Run, b: Run) {
    match (a.startedAtMs, b.startedAtMs)
    case (Some(s), Some(t)) => s > t || (s == t && StringLess(b.id, a.id))
    case (Some(s), None) => s > 0 || StringLess(b.id, a.id)
    case (None, Some(t)) => t == 0 && StringLess(b.id, a.id)
    case (None, None) => StringLess(b.id, a.id)
  }

  lemma ListIsNewestFirst(runs: seq<Run>, q: Query)
    requires UniqueIds(runs)
    ensures forall i, j | 0 <= i < j < |WholeList(runs, q)| :: NewerThan(WholeList(runs, q)[i], WholeList(runs, q)[j])
  {
    WholeListIsSorted(runs, q);
    hide WholeList;
  }

  /** A page that is not the last is full: the client's limit, but no more than 200. */
  lemma PagesAreFull(list: seq<Run>, q: Query)
    ensures var page := PageOf(list, q);
            && |page.runs| <= q.limit && |page.runs| <= 200
            && (page.nextCursor.Some? ==> |page.runs| == q.limit || |page.runs| == 200)
            && (page.nextCursor.Some? ==> |page.runs| < |LeftAfter(list, q.before)|)
  {
  }

  /** The first `limit` runs of the list that lie after the cursor, and a cursor if more follow. */
  function PageOf(list: seq<Run>, q: Query): Page {
    var limit := if q.limit < NATIVE_RUN_LIST_MAX_LIMIT then q.limit else NATIVE_RUN_LIST_MAX_LIMIT;
    var left := LeftAfter(list, q.before);
    if |left| <= limit then Page(left, None)
    else Page(left[..limit], if limit == 0 then None else Some(CursorOf(left[limit - 1])))
  }

  method ListNativeRuns(runs: seq<Run>, q: Query) returns (page: Page)
    ensures page == PageOf(WholeList(runs, q), q)
  {
    var limit := if q.limit < NATIVE_RUN_LIST_MAX_LIMIT then q.limit else NATIVE_RUN_LIST_MAX_LIMIT;
    var matches: seq<Run> := [];
    for i := 0 to |runs|
      invariant matches == Matching(runs[..i], q)
    {
      assert runs[..i + 1] == runs[..i] + [runs[i]];
      FilterSnoc(run => Matches(run, q), runs[..i], runs[i]);
      if Matches(runs[i], q) {
        matches := matches + [runs[i]];
      }
    }
    assert runs[..|runs|] == runs;
    var list := SortRuns(matches);

    var picked: seq<Run> := [];
    var hasMore := false;
    var i := 0;
    while i < |list|
      invariant 0 <= i <= |list| && |picked| <= limit
      invariant picked == LeftAfter(list[..i], q.before)
      decreases |list| - i
    {
      assert list[..i + 1] == list[..i] + [list[i]];
      LeftSnoc(list[..i], list[i], q.before);
      if q.before.Some? && !IsBeforeCursor(list[i], q.before.value) {
        i := i + 1;
        continue;
      }
      if |picked| == limit {
        hasMore := true;
        break;
      }
      picked := picked + [list[i]];
      i := i + 1;
    }
    LeftSplit(list, i, q.before);
    page := Page(picked, if hasMore && picked != [] then Some(CursorOf(picked[|picked| - 1])) else None);
  }

  function LeftAfter(list: seq<Run>, before: Option<Cursor>): seq<Run> {
    Filter(run => Wanted(run, before), list)
  }

  lemma LeftSnoc(list: seq<Run>, run: Run, before: Option<Cursor>)
    ensures LeftAfter(list + [run], before) == LeftAfter(list, before) + if Wanted(run, before) then [run] else []
  {
    FilterSnoc(r => Wanted(r, before), list, run);
  }

  lemma LeftAppend(a: seq<Run>, b: seq<Run>, before: Option<Cursor>)
    ensures LeftAfter(a + b, before) == LeftAfter(a, before) + LeftAfter(b, before)
  {
    FilterAppend(r => Wanted(r, before), a, b);
  }

  /** What is left splits at any point; a wanted run at the split heads the second part. */
  lemma LeftSplit(list: seq<Run>, i: nat, before: Option<Cursor>)
    requires i <= |list|
    ensures LeftAfter(list, before) == LeftAfter(list[..i], before) + LeftAfter(list[i..], before)
    ensures i < |list| && Wanted(list[i], before) ==> LeftAfter(list[i..], before) != []
    ensures i == |list| ==> LeftAfter(list[i..], before) == []
  {
    assert list == list[..i] + list[i..];
    LeftAppend(list[..i], list[i..], before);
    if i < |list| {
      assert list[i..] == [list[i]] + list[i + 1..];
      LeftAppend([list[i]], list[i + 1..], before);
      LeftSnoc([], list[i], before);
      assert [] + [list[i]] == [list[i]];
    }
  }

  lemma {:induction false} LeftNone(list: seq<Run>, before: Option<Cursor>)
    requires forall i | 0 <= i < |list| :: !Wanted(list[i], before)
    ensures LeftAfter(list, before) == []
  {
    if list != [] { LeftNone(list[..|list| - 1], before); }
  }

  lemma {:induction false} LeftAll(list: seq<Run>, before: Option<Cursor>)
    requires forall i | 0 <= i < |list| :: Wanted(list[i], before)
    ensures LeftAfter(list, before) == list
  {
    if list != [] { LeftAll(list[..|list| - 1], before); }
  }

  /** Exactly the runs after position `k` lie after the cursor of run `k - 1`. */
  lemma AfterCursor(list: seq<Run>, k: nat)
    requires Sorted(list) && 0 < k <= |list|
    ensures LeftAfter(list, Some(CursorOf(list[k - 1]))) == list[k..]
  {
    var before := Some(CursorOf(list[k - 1]));
    forall i | 0 <= i < k ensures !Wanted(list[i], before) {
      if i == k - 1 { StringLessIrreflexive(list[i].id); } else { PrecedesAsymmetric(list[i], list[k - 1]); }
    }
    forall i | k <= i < |list| ensures Wanted(list[i], before) {
      assert Precedes(list[k - 1], list[i]);
    }
    LeftNone(list[..k], before);
    LeftAll(list[k..], before);
    LeftSplit(list, k, before);
  }

  /** A page is a piece of what is left: all of it, or a non-empty start that its cursor points behind. */
  lemma PageIsPrefix(list: seq<Run>, q: Query)
    requires q.limit >= 1
    ensures var page, left := PageOf(list, q), LeftAfter(list, q.before);
            && page.runs <= left
            && (page.nextCursor.None? ==> page.runs == left)
            && (page.nextCursor.Some? ==>
                  page.runs != [] && page.nextCursor.value == CursorOf(page.runs[|page.runs| - 1]))
  {
  }

  /** `all` is a start of the list and `before` the cursor that points behind it. */
  predicate AtPosition(list: seq<Run>, all: seq<Run>, before: Option<Cursor>) {
    && |all| <= |list| && all == list[..|all|]
    && (before.None? ==> all == [])
    && (before.Some? ==> all != [] && before.value == CursorOf(all[|all| - 1]))
  }

  lemma StartOfList(list: seq<Run>)
    ensures AtPosition(list, [], None)
  {
  }

  /** One more page, and its cursor as the client sends it back. */
  lemma NextPage(runs: seq<Run>, q: Query, all: seq<Run>, before: Option<Cursor>)
    requires UniqueIds(runs) && (forall run | run in runs :: WellFormed(run)) && q.limit >= 1
    requires AtPosition(WholeList(runs, q), all, before)
    ensures var list, next := WholeList(runs, q), q.(before := before);
            var page := PageOf(WholeList(runs, next), next);
            && (page.nextCursor.None? ==> all + page.runs == list)
            && (page.nextCursor.Some? ==>
                  && |all| < |all + page.runs| <= |list|
                  && AtPosition(list, all + page.runs, Decode(Encode(page.nextCursor.value))))
  {
    var list, next := WholeList(runs, q), q.(before := before);
    hide *;
    SameList(runs, q, before);
    WholeListIsSorted(runs, q);
    PositionLeft(list, all, before);
    PageIsPrefix(list, next);
    var page := PageOf(list, next);
    ExtendPosition(list, all, before, page.runs);
    if page.nextCursor.Some? {
      ListMembersWellFormed(runs, q, page.runs[|page.runs| - 1]);
      WellFormedCursor(page.runs[|page.runs| - 1]);
      CursorRoundTrip(page.nextCursor.value);
    }
  }

  /** The pages a client gets that starts without a cursor and sends each page's cursor, as text, for the next. */
  ghost predicate Followed(runs: seq<Run>, q: Query, pages: seq<Page>) {
    && pages != []
    && pages[0] == PageOf(WholeList(runs, q), q)
    && forall i, j | 0 <= i < j < |pages| && j == i + 1 :: ComesNext(runs, q, pages[i], pages[j])
  }

  predicate ComesNext(runs: seq<Run>, q: Query, page: Page, next: Page) {
    page.nextCursor.Some? && next == NextPageOf(runs, q, page.nextCursor.value)
  }

  function NextPageOf(runs: seq<Run>, q: Query, cursor: Cursor): Page {
    var next := q.(before := Decode(Encode(cursor)));
    PageOf(WholeList(runs, next), next)
  }

  lemma FollowedFront(runs: seq<Run>, q: Query, pages: seq<Page>)
    requires Followed(runs, q, pages) && |pages| > 1
    ensures var n := |pages| - 1;
            && Followed(runs, q, pages[..n])
            && pages[n - 1].nextCursor.Some? && pages[n] == NextPageOf(runs, q, pages[n - 1].nextCursor.value)
  {
    var n := |pages| - 1;
    var front := pages[..n];
    assert ComesNext(runs, q, pages[n - 1], pages[n]);
    hide ComesNext, PageOf, WholeList;
    forall i, j | 0 <= i < j < n && j == i + 1 ensures ComesNext(runs, q, front[i], front[j]) {
      assert ComesNext(runs, q, pages[i], pages[j]);
    }
  }

  function Joined(pages: seq<Page>): seq<Run> {
    if pages == [] then [] else Joined(pages[..|pages| - 1]) + pages[|pages| - 1].runs
  }

  /**
   Paging equals the whole: the pages that following cursors gives join up to a start of the sorted list of
   matching runs, nothing skipped and nothing repeated; each page with a cursor adds a run, so following ends,
   and when a page has no cursor the pages join up to the whole list.
   */
  lemma {:induction false} FollowedPagesAreTheList(runs: seq<Run>, q: Query, pages: seq<Page>)
    requires UniqueIds(runs) && (forall run | run in runs :: WellFormed(run))
    requires q.before.None? && q.limit >= 1 && Followed(runs, q, pages)
    ensures var list, all, last := WholeList(runs, q), Joined(pages), pages[|pages| - 1];
            && Sorted(list) && multiset(list) == multiset(Matching(runs, q))
            && all <= list && |pages| <= |list| + 1
            && (last.nextCursor.None? ==> all == list)
            && (last.nextCursor.Some? ==> |pages| <= |all| && AtPosition(list, all, Decode(Encode(last.nextCursor.value))))
    decreases |pages|
  {
    WholeListIsSorted(runs, q);
    WholeListPermutes(runs, q);
    var n, list := |pages| - 1, WholeList(runs, q);
    var front := pages[..n];
    if n > 0 { FollowedFront(runs, q, pages); }
    hide Followed, WholeList, Matching, PageOf, Sorted, UniqueIds, AtPosition, Decode, Encode;
    if n == 0 {
      FollowedStart(runs, q, pages);
      StartOfList(list);
      NextPage(runs, q, [], None);
      assert q.(before := None) == q;
      assert Joined(pages) == [] + pages[0].runs;
    } else {
      FollowedPagesAreTheList(runs, q, front);
      NextPage(runs, q, Joined(front), Decode(Encode(front[n - 1].nextCursor.value)));
    }
    JoinedIsStart(list, Joined(pages), Joined(front), pages[n]);
  }

  lemma FollowedStart(runs: seq<Run>, q: Query, pages: seq<Page>)
    requires Followed(runs, q, pages)
    ensures pages[0] == PageOf(WholeList(runs, q), q)
  {
  }

  lemma JoinedIsStart(list: seq<Run>, all: seq<Run>, before: seq<Run>, page: Page)
    requires all == before + page.runs
    requires page.nextCursor.None? ==> all == list
    requires page.nextCursor.Some? ==> AtPosition(list, all, Decode(Encode(page.nextCursor.value)))
    ensures all <= list
  {
  }

  lemma WellFormedCursor(run: Run)
    requires WellFormed(run)
    ensures CursorOf(run).startedAtMs <= U64_MAX && !IsBlank(CursorOf(run).runId)
  {
  }

  lemma PositionLeft(list: seq<Run>, all: seq<Run>, before: Option<Cursor>)
    requires Sorted(list) && AtPosition(list, all, before)
    ensures |all| <= |list| && LeftAfter(list, before) == list[|all|..]
  {
    hide Sorted;
    LeftAtPosition(list, |all|, before);
  }

  lemma ExtendPosition(list: seq<Run>, all: seq<Run>, before: Option<Cursor>, piece: seq<Run>)
    requires AtPosition(list, all, before) && |all| <= |list| && piece <= list[|all|..]
    ensures piece == list[|all|..] ==> all + piece == list
    ensures piece != [] ==>
            && |all + piece| <= |list| && piece[|piece| - 1] in list
            && AtPosition(list, all + piece, Some(CursorOf(piece[|piece| - 1])))
  {
    ExtendPrefix(list, |all|, piece);
    if piece != [] {
      assert (all + piece)[|all + piece| - 1] == piece[|piece| - 1] == list[|all + piece| - 1];
    }
  }

  lemma ExtendPrefix(list: seq<Run>, k: nat, piece: seq<Run>)
    requires k <= |list| && piece <= list[k..]
    ensures k + |piece| <= |list| && list[..k] + piece == list[..k + |piece|]
    ensures piece == list[k..] ==> list[..k] + piece == list
  {
  }

  lemma LeftAtPosition(list: seq<Run>, k: nat, before: Option<Cursor>)
    requires Sorted(list) && k <= |list|
    requires before.None? ==> k == 0
    requires before.Some? ==> k > 0 && before.value == CursorOf(list[k - 1])
    ensures LeftAfter(list, before) == list[k..]
  {
    if before.Some? { AfterCursor(list, k); } else { LeftAll(list, before); }
  }

  lemma WholeListPermutes(runs: seq<Run>, q: Query)
    ensures multiset(WholeList(runs, q)) == multiset(Matching(runs, q))
  {
    SortPermutes(Matching(runs, q));
  }

  lemma SameList(runs: seq<Run>, q: Query, before: Option<Cursor>)
    ensures WholeList(runs, q.(before := before)) == WholeList(runs, q)
  {
    SameMatching(runs, q, before);
  }

  lemma {:induction false} SameMatching(runs: seq<Run>, q: Query, before: Option<Cursor>)
    ensures Matching(runs, q.(before := before)) == Matching(runs, q)
  {
    if runs != [] { SameMatching(runs[..|runs| - 1], q, before); }
  }

  lemma {:induction false} MatchingUnique(runs: seq<Run>, q: Query)
    requires UniqueIds(runs)
    ensures UniqueIds(Matching(runs, q))
  {
    if runs != [] {
      var front, last := runs[..|runs| - 1], runs[|runs| - 1];
      MatchingUnique(front, q);
      forall x | x in Matching(front, q) ensures x.id != last.id {
        FilterMember(run => Matches(run, q), front, x);
      }
    }
  }

  lemma WholeListIsSorted(runs: seq<Run>, q: Query)
    requires UniqueIds(runs)
    ensures Sorted(WholeList(runs, q))
  {
    MatchingUnique(runs, q);
    SortSorts(Matching(runs, q));
  }

  lemma ListMembersWellFormed(runs: seq<Run>, q: Query, run: Run)
    requires (forall r | r in runs :: WellFormed(r)) && run in WholeList(runs, q)
    ensures WellFormed(run)
  {
    SortPermutes(Matching(runs, q));
    assert run in multiset(Matching(runs, q));
    FilterMember(r => Matches(r, q), runs, run);
  }
}
