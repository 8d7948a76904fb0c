/**
 Shell spans: start and end rows are paired into spans, and the spans are handed
 to the native bash calls first come, first served within each key.
 */
module ShellSpans {
  import opened Sequences

  // ----- Pairing rows -----

  /** `time` is None when it is not a number; absent hashes are empty. */
  datatype Row =
    | Start(id: string, time: Option<real>, command: string, cwd: string)
    | End(id: string, time: Option<real>, command: string, cwd: string)
    | Unrelated

  /** `start` and `end` are None until their row is seen. */
  datatype Span = Span(
    id: string,
    row: nat,
    start: Option<Option<real>>,
    end: Option<Option<real>>,
    command: string,
    cwd: string)

  datatype Issue = MissingId(row: nat) | DuplicateStart(id: string) | DuplicateEnd(id: string) | Incomplete(id: string)

  datatype Build = Build(spans: map<string, Span>, order: seq<string>, issues: seq<Issue>)

  function Put(b: Build, span: Span): Build {
    b.(spans := b.spans[span.id := span], order := if span.id in b.spans then b.order else b.order + [span.id])
  }

  function SpanAt(b: Build, id: string, row: nat): Span {
    if id in b.spans then b.spans[id] else Span(id, row, None, None, "", "")
  }

  function Or(a: string, b: string): string {
    if a != "" then a else b
  }

  function Marked(b: Build, index: nat, row: Row): Build {
    if row.Unrelated? then b
    else if row.id == "" then b.(issues := b.issues + [MissingId(index)])
    else
      var span := SpanAt(b, row.id, index);
      if row.Start? then
        if span.start.Some? then b.(issues := b.issues + [DuplicateStart(row.id)])
        else Put(b, span.(id := row.id, start := Some(row.time), command := row.command, cwd := row.cwd))
      else
        if span.end.Some? then b.(issues := b.issues + [DuplicateEnd(row.id)])
        else Put(b, span.(id := row.id, end := Some(row.time), command := Or(row.command, span.command),
            cwd := Or(row.cwd, span.cwd)))
  }

  function BuildAll(rows: seq<Row>): Build {
    if rows == [] then Build(map[], [], [])
    else Marked(BuildAll(rows[..|rows| - 1]), |rows| - 1, rows[|rows| - 1])
  }

  predicate IsComplete(s: Span) {
    && s.start.Some? && s.start.value.Some?
    && s.end.Some? && s.end.value.Some?
    && |s.command| == 64 && |s.cwd| == 64
  }

  datatype Checked = Checked(spans: seq<Span>, issues: seq<Issue>)

  function CheckAll(spans: map<string, Span>, order: seq<string>, issues: seq<Issue>): Checked {
    if order == [] then Checked([], issues)
    else
      var before, id := CheckAll(spans, order[..|order| - 1], issues), order[|order| - 1];
      if id in spans && IsComplete(spans[id]) then before.(spans := before.spans + [spans[id]])
      else before.(issues := before.issues + [Incomplete(id)])
  }

  function SpansOf(rows: seq<Row>): Checked {
    var b := BuildAll(rows);
    CheckAll(b.spans, b.order, b.issues)
  }

  method OpenCodeShellSpans(rows: seq<Row>) returns (r: Checked)
    ensures r == SpansOf(rows)
  {
    var spans: map<string, Span>, order: seq<string>, issues: seq<Issue> := map[], [], [];
    for i := 0 to |rows|
      invariant Build(spans, order, issues) == BuildAll(rows[..i])
    {
      var row := rows[i];
      assert rows[..i + 1][..i] == rows[..i];
      if row.Unrelated? {
        continue;
      }
      if row.id == "" {
        issues := issues + [MissingId(i)];
        continue;
      }
      var span := if row.id in spans then spans[row.id] else Span(row.id, i, None, None, "", "");
      if row.Start? {
        if span.start.Some? {
          issues := issues + [DuplicateStart(row.id)];
          continue;
        }
        span := span.(id := row.id, start := Some(row.time), command := row.command, cwd := row.cwd);
      } else {
        if span.end.Some? {
          issues := issues + [DuplicateEnd(row.id)];
          continue;
        }
        span := span.(id := row.id, end := Some(row.time), command := Or(row.command, span.command),
            cwd := Or(row.cwd, span.cwd));
      }
      if row.id !in spans {
        order := order + [row.id];
      }
      spans := spans[row.id := span];
    }
    assert rows[..|rows|] == rows;
    var valid: seq<Span>, found := [], issues;
    for i := 0 to |order|
      invariant Checked(valid, issues) == CheckAll(spans, order[..i], found)
    {
      assert order[..i + 1][..i] == order[..i];
      if order[i] in spans && IsComplete(spans[order[i]]) {
        valid := valid + [spans[order[i]]];
      } else {
        issues := issues + [Incomplete(order[i])];
      }
    }
    assert order[..|order|] == order;
    r := Checked(valid, issues);
  }

  // ----- When pairing is clean -----

  ghost predicate HasStart(rows: seq<Row>, id: string) {
    exists i :: 0 <= i < |rows| && rows[i].Start? && rows[i].id == id
  }

  ghost predicate HasEnd(rows: seq<Row>, id: string) {
    exists i :: 0 <= i < |rows| && rows[i].End? && rows[i].id == id
  }

  /** Every shell row has an id, and no id starts twice or ends twice. */
  ghost predicate Clean(rows: seq<Row>) {
    && (forall i :: 0 <= i < |rows| && !rows[i].Unrelated? ==> rows[i].id != "")
    && (forall i, j :: 0 <= i < j < |rows| && rows[i].Start? && rows[j].Start? ==> rows[i].id != rows[j].id)
    && (forall i, j :: 0 <= i < j < |rows| && rows[i].End? && rows[j].End? ==> rows[i].id != rows[j].id)
  }

  /** Each id seen is listed once. */
  ghost predicate Listed(b: Build) {
    Distinct(b.order) && forall id :: id in b.order <==> id in b.spans
  }

  /** What the build knows of an id is what the rows say. */
  ghost predicate Tracks(b: Build, rows: seq<Row>, id: string) {
    && (id in b.spans ==> b.spans[id].id == id && id != "")
    && (id != "" ==> (HasStart(rows, id) <==> id in b.spans && b.spans[id].start.Some?))
    && (id != "" ==> (HasEnd(rows, id) <==> id in b.spans && b.spans[id].end.Some?))
  }

  lemma StartsMore(rows: seq<Row>, row: Row, id: string)
    ensures HasStart(rows + [row], id) <==> HasStart(rows, id) || (row.Start? && row.id == id)
    ensures HasEnd(rows + [row], id) <==> HasEnd(rows, id) || (row.End? && row.id == id)
  {
    var all := rows + [row];
    assert all[|rows|] == row;
    assert forall i :: 0 <= i < |rows| ==> all[i] == rows[i];
  }

  lemma MarkedIsListed(b: Build, index: nat, row: Row)
    requires Listed(b)
    ensures Listed(Marked(b, index, row))
  {
    if !row.Unrelated? && row.id !in b.spans {
      DistinctConcat(b.order, [row.id]);
    }
  }

  lemma MarkedTracks(b: Build, rows: seq<Row>, row: Row, id: string)
    requires Tracks(b, rows, id)
    ensures Tracks(Marked(b, |rows|, row), rows + [row], id)
  {
    StartsMore(rows, row, id);
  }

  lemma {:induction false} BuildTracks(rows: seq<Row>, id: string)
    ensures Listed(BuildAll(rows)) && Tracks(BuildAll(rows), rows, id)
  {
    if rows != [] {
      var init, last := rows[..|rows| - 1], rows[|rows| - 1];
      assert rows == init + [last];
      BuildTracks(init, id);
      MarkedIsListed(BuildAll(init), |init|, last);
      MarkedTracks(BuildAll(init), init, last, id);
    }
  }

  lemma CleanMore(rows: seq<Row>, row: Row)
    ensures Clean(rows + [row]) <==>
            && Clean(rows)
            && (row.Unrelated? || row.id != "")
            && (row.Start? ==> !HasStart(rows, row.id))
            && (row.End? ==> !HasEnd(rows, row.id))
  {
    var all := rows + [row];
    assert all[|rows|] == row;
    assert forall i :: 0 <= i < |rows| ==> all[i] == rows[i];
  }

  /** Pairing raises no issue exactly when every shell row has an id and none starts or ends twice. */
  lemma {:induction false} NoIssueExactlyWhenClean(rows: seq<Row>)
    ensures BuildAll(rows).issues == [] <==> Clean(rows)
  {
    if rows != [] {
      var init, last := rows[..|rows| - 1], rows[|rows| - 1];
      assert rows == init + [last];
      NoIssueExactlyWhenClean(init);
      CleanMore(init, last);
      if !last.Unrelated? {
        BuildTracks(init, last.id);
      }
    }
  }

  lemma {:induction false} CheckingAddsIncomplete(spans: map<string, Span>, order: seq<string>, issues: seq<Issue>)
    ensures CheckAll(spans, order, issues).issues == [] <==>
            issues == [] && forall id <- order :: id in spans && IsComplete(spans[id])
  {
    if order != [] {
      var init, last := order[..|order| - 1], order[|order| - 1];
      assert order == init + [last];
      CheckingAddsIncomplete(spans, init, issues);
    }
  }

  /** There is no span issue at all exactly when the rows are clean and every id seen has a complete span. */
  lemma NoSpanIssueExactlyWhen(rows: seq<Row>)
    ensures SpansOf(rows).issues == [] <==>
            Clean(rows) && forall id <- BuildAll(rows).spans :: IsComplete(BuildAll(rows).spans[id])
  {
    var b := BuildAll(rows);
    NoIssueExactlyWhenClean(rows);
    BuildTracks(rows, "");
    CheckingAddsIncomplete(b.spans, b.order, b.issues);
  }

  // ----- Sorting spans -----

  type Key = (string, string)

  function KeyOf(s: Span): Key {
    (s.command, s.cwd)
  }

  function StartOf(s: Span): real {
    if s.start.Some? && s.start.value.Some? then s.start.value.value else 0.0
  }

  predicate NotAfter(a: Span, b: Span) {
    StartOf(a) < StartOf(b) || (StartOf(a) == StartOf(b) && a.row <= b.row)
  }

  function Insert(s: Span, sorted: seq<Span>): seq<Span> {
    if sorted == [] then [s]
    else if NotAfter(sorted[|sorted| - 1], s) then sorted + [s]
    else Insert(s, sorted[..|sorted| - 1]) + [sorted[|sorted| - 1]]
  }

  /** `sorted` by start time, then by row. */
  function SortedSpans(spans: seq<Span>): seq<Span> {
    if spans == [] then [] else Insert(spans[|spans| - 1], SortedSpans(spans[..|spans| - 1]))
  }

  ghost predicate InOrder(spans: seq<Span>) {
    forall i, j :: 0 <= i < j < |spans| ==> NotAfter(spans[i], spans[j])
  }

  lemma {:induction false} InsertAddsOne(s: Span, sorted: seq<Span>)
    ensures multiset(Insert(s, sorted)) == multiset(sorted) + multiset{s}
    ensures forall x :: x in Insert(s, sorted) <==> x in sorted || x == s
  {
    if sorted != [] && !NotAfter(sorted[|sorted| - 1], s) {
      var init, last := sorted[..|sorted| - 1], sorted[|sorted| - 1];
      assert sorted == init + [last];
      InsertAddsOne(s, init);
    }
  }

  lemma AppendKeepsOrder(spans: seq<Span>, last: Span)
    requires InOrder(spans) && forall x <- spans :: NotAfter(x, last)
    ensures InOrder(spans + [last])
  {
    forall i | 0 <= i < |spans|
      ensures NotAfter(spans[i], last)
    {
      assert spans[i] in spans;
    }
  }

  lemma {:induction false} InsertKeepsOrder(s: Span, sorted: seq<Span>)
    requires InOrder(sorted)
    ensures InOrder(Insert(s, sorted))
  {
    if sorted != [] {
      var init, last := sorted[..|sorted| - 1], sorted[|sorted| - 1];
      if NotAfter(last, s) {
        AppendKeepsOrder(sorted, s);
      } else {
        InsertKeepsOrder(s, init);
        InsertAddsOne(s, init);
        AppendKeepsOrder(Insert(s, init), last);
      }
    }
  }

  lemma {:induction false} SortingSorts(spans: seq<Span>)
    ensures InOrder(SortedSpans(spans)) && multiset(SortedSpans(spans)) == multiset(spans)
  {
    if spans != [] {
      var init, last := spans[..|spans| - 1], spans[|spans| - 1];
      assert spans == init + [last];
      SortingSorts(init);
      InsertKeepsOrder(last, SortedSpans(init));
      InsertAddsOne(last, SortedSpans(init));
    }
  }

  // ----- Matching -----

  type Queues = map<Key, seq<Span>>

  function QueueAt(q: Queues, k: Key): seq<Span> {
    if k in q then q[k] else []
  }

  function Enqueued(q: Queues, s: Span): Queues {
    q[KeyOf(s) := QueueAt(q, KeyOf(s)) + [s]]
  }

  function QueuesOf(spans: seq<Span>): Queues {
    Fold(Enqueued, map[], spans)
  }

  /** What is left in the queues, and the span given to each native call. */
  datatype Matching = Matching(queues: Queues, given: seq<Option<Span>>)

  /** A native call without a key gets nothing. */
  function Given(m: Matching, native: Option<Key>): Matching {
    if native.Some? && QueueAt(m.queues, native.value) != [] then
      var queue := QueueAt(m.queues, native.value);
      Matching(m.queues[native.value := queue[1..]], m.given + [Some(queue[0])])
    else m.(given := m.given + [None])
  }

  function MatchAll(natives: seq<Option<Key>>, spans: seq<Span>): Matching {
    Fold(Given, Matching(QueuesOf(SortedSpans(spans)), []), natives)
  }

  function Missing(m: Matching): bool {
    exists j :: 0 <= j < |m.given| && m.given[j].None?
  }

  ghost predicate LeftOver(m: Matching) {
    exists k :: QueueAt(m.queues, k) != []
  }

  function MatchedCount(given: seq<Option<Span>>): nat {
    if given == [] then 0
    else MatchedCount(given[..|given| - 1]) + if given[|given| - 1].Some? then 1 else 0
  }

  method FillQueues(sorted: seq<Span>) returns (queues: Queues)
    ensures queues == QueuesOf(sorted)
  {
    queues := map[];
    for i := 0 to |sorted|
      invariant queues == QueuesOf(sorted[..i])
    {
      FoldMore(Enqueued, map[], sorted, i);
      queues := queues[KeyOf(sorted[i]) := QueueAt(queues, KeyOf(sorted[i])) + [sorted[i]]];
    }
    assert sorted[..|sorted|] == sorted;
  }

  method MatchNatives(natives: seq<Option<Key>>, spans: seq<Span>) returns (m: Matching, matched: nat)
    ensures m == MatchAll(natives, spans) && matched == MatchedCount(m.given)
  {
    var queues := FillQueues(SortedSpans(spans));
    var given: seq<Option<Span>> := [];
    matched := 0;
    ghost var first := Matching(queues, []);
    for i := 0 to |natives|
      invariant Matching(queues, given) == Fold(Given, first, natives[..i]) && matched == MatchedCount(given)
    {
      var native := natives[i];
      ghost var before := Matching(queues, given);
      FoldMore(Given, first, natives, i);
      GivenCounts(before, native);
      if native.Some? && QueueAt(queues, native.value) != [] {
        var queue := QueueAt(queues, native.value);
        queues := queues[native.value := queue[1..]];
        given := given + [Some(queue[0])];
        matched := matched + 1;
      } else {
        given := given + [None];
      }
      assert Matching(queues, given) == Given(before, native);
    }
    assert natives[..|natives|] == natives;
    m := Matching(queues, given);
  }

  /** The spans of one key, in the given order. */
  function OfKey(spans: seq<Span>, k: Key): seq<Span> {
    if spans == [] then []
    else
      var last := spans[|spans| - 1];
      OfKey(spans[..|spans| - 1], k) + if KeyOf(last) == k then [last] else []
  }

  function Occurrences(natives: seq<Option<Key>>, k: Key): nat {
    if natives == [] then 0
    else Occurrences(natives[..|natives| - 1], k) + if natives[|natives| - 1] == Some(k) then 1 else 0
  }

  lemma {:induction false} QueuesHoldSpans(spans: seq<Span>, k: Key)
    ensures QueueAt(QueuesOf(spans), k) == OfKey(spans, k)
  {
    if spans != [] {
      QueuesHoldSpans(spans[..|spans| - 1], k);
      assert OfKey(spans[..|spans| - 1], k) + [] == OfKey(spans[..|spans| - 1], k);
    }
  }

  /** The queue's contents from the n-th on; nothing when fewer were there. */
  function Rest(queue: seq<Span>, n: nat): seq<Span> {
    if n <= |queue| then queue[n..] else []
  }

  function NthOf(queue: seq<Span>, n: nat): Option<Span> {
    if n < |queue| then Some(queue[n]) else None
  }

  lemma RestNext(queue: seq<Span>, n: nat)
    ensures Rest(queue, n + 1) == if Rest(queue, n) == [] then [] else Rest(queue, n)[1..]
  {
  }

  lemma GivenTakesOne(m: Matching, native: Option<Key>, k: Key)
    ensures var queue := QueueAt(m.queues, k);
            QueueAt(Given(m, native).queues, k) == if native == Some(k) && queue != [] then queue[1..] else queue
    ensures |Given(m, native).given| == |m.given| + 1
  {
  }

  lemma {:induction false} QueueAfter(queues: Queues, natives: seq<Option<Key>>, k: Key)
    ensures QueueAt(Fold(Given, Matching(queues, []), natives).queues, k)
            == Rest(QueueAt(queues, k), Occurrences(natives, k))
    ensures |Fold(Given, Matching(queues, []), natives).given| == |natives|
  {
    if natives != [] {
      var init, last := natives[..|natives| - 1], natives[|natives| - 1];
      QueueAfter(queues, init, k);
      GivenTakesOne(Fold(Given, Matching(queues, []), init), last, k);
      RestNext(QueueAt(queues, k), Occurrences(init, k));
    }
  }

  function Due(queues: Queues, natives: seq<Option<Key>>, j: nat): Option<Span>
    requires j < |natives|
  {
    if natives[j].None? then None
    else NthOf(QueueAt(queues, natives[j].value), Occurrences(natives[..j], natives[j].value))
  }

  lemma GivenIsFirst(m: Matching, native: Option<Key>)
    ensures Given(m, native).given
            == m.given + [if native.None? then None else NthOf(QueueAt(m.queues, native.value), 0)]
  {
  }

  lemma LastIsDue(queues: Queues, natives: seq<Option<Key>>)
    requires natives != []
    ensures var before := Fold(Given, Matching(queues, []), natives[..|natives| - 1]);
            Given(before, natives[|natives| - 1]).given == before.given + [Due(queues, natives, |natives| - 1)]
  {
    var init, last := natives[..|natives| - 1], natives[|natives| - 1];
    GivenIsFirst(Fold(Given, Matching(queues, []), init), last);
    if last.Some? {
      QueueAfter(queues, init, last.value);
    }
  }

  lemma {:induction false} GivenIsDue(queues: Queues, natives: seq<Option<Key>>, j: nat)
    requires j < |natives|
    ensures var given := Fold(Given, Matching(queues, []), natives).given;
            |given| == |natives| && given[j] == Due(queues, natives, j)
  {
    var init := natives[..|natives| - 1];
    LastIsDue(queues, natives);
    QueueAfter(queues, init, ("", ""));
    if j < |init| {
      GivenIsDue(queues, init, j);
      assert init[..j] == natives[..j];
    }
  }

  /** The i-th native call of a key gets the key's i-th span by start time, or nothing when there are fewer. */
  lemma MatchingIsFirstComeFirstServed(natives: seq<Option<Key>>, spans: seq<Span>, j: nat)
    requires j < |natives|
    ensures var given := MatchAll(natives, spans).given;
            && |given| == |natives|
            && given[j] ==
               if natives[j].None? then None
               else NthOf(OfKey(SortedSpans(spans), natives[j].value), Occurrences(natives[..j], natives[j].value))
  {
    GivenIsDue(QueuesOf(SortedSpans(spans)), natives, j);
    if natives[j].Some? {
      QueuesHoldSpans(SortedSpans(spans), natives[j].value);
    }
  }

  // ----- No span is given twice -----

  lemma {:induction false} InsertKeepsDistinct(s: Span, sorted: seq<Span>)
    requires Distinct(sorted) && s !in sorted
    ensures Distinct(Insert(s, sorted))
  {
    if sorted == [] {
    } else if NotAfter(sorted[|sorted| - 1], s) {
      DistinctConcat(sorted, [s]);
    } else {
      var init, last := sorted[..|sorted| - 1], sorted[|sorted| - 1];
      assert sorted == init + [last] && last !in init;
      InsertKeepsDistinct(s, init);
      InsertAddsOne(s, init);
      DistinctConcat(Insert(s, init), [last]);
    }
  }

  lemma {:induction false} SortingKeepsDistinct(spans: seq<Span>)
    requires Distinct(spans)
    ensures Distinct(SortedSpans(spans)) && forall x :: x in SortedSpans(spans) <==> x in spans
  {
    if spans != [] {
      var init, last := spans[..|spans| - 1], spans[|spans| - 1];
      assert spans == init + [last] && last !in init;
      SortingKeepsDistinct(init);
      InsertKeepsDistinct(last, SortedSpans(init));
      InsertAddsOne(last, SortedSpans(init));
    }
  }

  lemma {:induction false} OfKeyIsDistinct(spans: seq<Span>, k: Key)
    requires Distinct(spans)
    ensures Distinct(OfKey(spans, k)) && forall x :: x in OfKey(spans, k) <==> x in spans && KeyOf(x) == k
  {
    if spans != [] {
      var init, last := spans[..|spans| - 1], spans[|spans| - 1];
      assert spans == init + [last] && last !in init;
      OfKeyIsDistinct(init, k);
      if KeyOf(last) == k {
        DistinctConcat(OfKey(init, k), [last]);
      }
    }
  }

  lemma {:induction false} OccurrencesGrow(natives: seq<Option<Key>>, i: nat, k: Key)
    requires i < |natives|
    ensures Occurrences(natives[..i], k) + (if natives[i] == Some(k) then 1 else 0) <= Occurrences(natives, k)
  {
    var init := natives[..|natives| - 1];
    if i < |init| {
      OccurrencesGrow(init, i, k);
      assert init[..i] == natives[..i];
    }
  }

  /** Spans at two places of one queue, or of the queues of two keys, are different. */
  lemma QueuedSpansDiffer(spans: seq<Span>, k: Key, m: nat, l: Key, n: nat)
    requires Distinct(spans) && m < |OfKey(spans, k)| && n < |OfKey(spans, l)| && (k, m) != (l, n)
    ensures OfKey(spans, k)[m] != OfKey(spans, l)[n]
  {
    OfKeyIsDistinct(spans, k);
    OfKeyIsDistinct(spans, l);
    assert OfKey(spans, k)[m] in OfKey(spans, k) && OfKey(spans, l)[n] in OfKey(spans, l);
  }

  /** Two native calls never get the same span. */
  lemma NoSpanIsGivenTwice(natives: seq<Option<Key>>, spans: seq<Span>, i: nat, j: nat)
    requires Distinct(spans) && i < j < |natives|
    ensures var given := MatchAll(natives, spans).given;
            |given| == |natives| && (given[i].Some? && given[j].Some? ==> given[i] != given[j])
  {
    var given := MatchAll(natives, spans).given;
    MatchingIsFirstComeFirstServed(natives, spans, i);
    MatchingIsFirstComeFirstServed(natives, spans, j);
    if given[i].Some? && given[j].Some? {
      var k, l := natives[i].value, natives[j].value;
      SortingKeepsDistinct(spans);
      OccurrencesGrow(natives[..j], i, k);
      assert natives[..j][..i] == natives[..i];
      QueuedSpansDiffer(SortedSpans(spans), k, Occurrences(natives[..i], k), l, Occurrences(natives[..j], l));
    }
  }

  lemma {:induction false} CheckedSpansAreDistinct(spans: map<string, Span>, order: seq<string>, issues: seq<Issue>)
    requires Distinct(order) && forall id <- spans :: spans[id].id == id
    ensures Distinct(CheckAll(spans, order, issues).spans)
    ensures forall s <- CheckAll(spans, order, issues).spans :: s.id in order && IsComplete(s)
  {
    if order != [] {
      var init, last := order[..|order| - 1], order[|order| - 1];
      assert order == init + [last] && last !in init;
      CheckedSpansAreDistinct(spans, init, issues);
      if last in spans && IsComplete(spans[last]) {
        DistinctConcat(CheckAll(spans, init, issues).spans, [spans[last]]);
      }
    }
  }

  lemma PairedSpansAreDistinct(rows: seq<Row>)
    ensures Distinct(SpansOf(rows).spans) && forall s <- SpansOf(rows).spans :: IsComplete(s)
  {
    forall id
      ensures Listed(BuildAll(rows)) && Tracks(BuildAll(rows), rows, id)
    {
      BuildTracks(rows, id);
    }
    BuildTracks(rows, "");
    var b := BuildAll(rows);
    forall id | id in b.spans
      ensures b.spans[id].id == id
    {
      assert Tracks(b, rows, id);
    }
    CheckedSpansAreDistinct(b.spans, b.order, b.issues);
  }

  // ----- How many are matched -----

  /** Over the listed keys, the smaller of the two counts. */
  function TotalOfMinima(keys: seq<Key>, natives: seq<Option<Key>>, spans: seq<Span>): nat {
    if keys == [] then 0
    else
      var k := keys[|keys| - 1];
      TotalOfMinima(keys[..|keys| - 1], natives, spans) + Smaller(Occurrences(natives, k), |OfKey(spans, k)|)
  }

  function Smaller(a: nat, b: nat): nat {
    if a <= b then a else b
  }

  lemma {:induction false} OneMoreNative(keys: seq<Key>, natives: seq<Option<Key>>, native: Option<Key>,
      spans: seq<Span>)
    requires Distinct(keys)
    ensures var more := native.Some? && native.value in keys
                        && Occurrences(natives, native.value) < |OfKey(spans, native.value)|;
            TotalOfMinima(keys, natives + [native], spans)
            == TotalOfMinima(keys, natives, spans) + if more then 1 else 0
  {
    if keys != [] {
      var init, k := keys[..|keys| - 1], keys[|keys| - 1];
      assert keys == init + [k] && k !in init;
      OneMoreNative(init, natives, native, spans);
      assert (natives + [native])[..|natives|] == natives;
    }
  }

  lemma {:induction false} NothingMatched(keys: seq<Key>, spans: seq<Span>)
    ensures TotalOfMinima(keys, [], spans) == 0
  {
    if keys != [] {
      NothingMatched(keys[..|keys| - 1], spans);
    }
  }

  lemma GivenCounts(m: Matching, native: Option<Key>)
    ensures MatchedCount(Given(m, native).given) == MatchedCount(m.given) +
            if native.Some? && QueueAt(m.queues, native.value) != [] then 1 else 0
  {
    assert Given(m, native).given[..|m.given|] == m.given;
  }

  lemma {:induction false} CountIsTotal(keys: seq<Key>, natives: seq<Option<Key>>, sorted: seq<Span>)
    requires Distinct(keys) && forall j :: 0 <= j < |natives| && natives[j].Some? ==> natives[j].value in keys
    ensures MatchedCount(Fold(Given, Matching(QueuesOf(sorted), []), natives).given)
            == TotalOfMinima(keys, natives, sorted)
  {
    if natives == [] {
      NothingMatched(keys, sorted);
    } else {
      var init, last := natives[..|natives| - 1], natives[|natives| - 1];
      assert natives == init + [last];
      CountIsTotal(keys, init, sorted);
      OneMoreNative(keys, init, last, sorted);
      GivenCounts(Fold(Given, Matching(QueuesOf(sorted), []), init), last);
      if last.Some? {
        QueueAfter(QueuesOf(sorted), init, last.value);
        QueuesHoldSpans(sorted, last.value);
      }
    }
  }

  lemma {:induction false} InsertCountsKey(s: Span, sorted: seq<Span>, k: Key)
    ensures |OfKey(Insert(s, sorted), k)| == |OfKey(sorted, k)| + if KeyOf(s) == k then 1 else 0
  {
    if sorted == [] {
      assert OfKey([s], k) == OfKey([], k) + if KeyOf(s) == k then [s] else [];
    } else if NotAfter(sorted[|sorted| - 1], s) {
      assert (sorted + [s])[..|sorted|] == sorted;
    } else {
      var init, last := sorted[..|sorted| - 1], sorted[|sorted| - 1];
      InsertCountsKey(s, init, k);
      assert (Insert(s, init) + [last])[..|Insert(s, init)|] == Insert(s, init);
    }
  }

  lemma {:induction false} SortingCountsKey(spans: seq<Span>, k: Key)
    ensures |OfKey(SortedSpans(spans), k)| == |OfKey(spans, k)|
  {
    if spans != [] {
      SortingCountsKey(spans[..|spans| - 1], k);
      InsertCountsKey(spans[|spans| - 1], SortedSpans(spans[..|spans| - 1]), k);
    }
  }

  lemma {:induction false} SortingKeepsTotal(keys: seq<Key>, natives: seq<Option<Key>>, spans: seq<Span>)
    ensures TotalOfMinima(keys, natives, SortedSpans(spans)) == TotalOfMinima(keys, natives, spans)
  {
    if keys != [] {
      SortingKeepsTotal(keys[..|keys| - 1], natives, spans);
      SortingCountsKey(spans, keys[|keys| - 1]);
    }
  }

  /** The matched count is, summed over the keys, the smaller of the native and the span count. */
  lemma MatchedCountIsTotalOfMinima(keys: seq<Key>, natives: seq<Option<Key>>, spans: seq<Span>)
    requires Distinct(keys) && forall j :: 0 <= j < |natives| && natives[j].Some? ==> natives[j].value in keys
    ensures MatchedCount(MatchAll(natives, spans).given) == TotalOfMinima(keys, natives, spans)
  {
    CountIsTotal(keys, natives, SortedSpans(spans));
    SortingKeepsTotal(keys, natives, spans);
  }

  // ----- Integrity -----

  ghost predicate Passed(natives: seq<Option<Key>>, checked: Checked) {
    var m := MatchAll(natives, checked.spans);
    checked.issues == [] && !Missing(m) && !LeftOver(m)
  }

  /** Every native call has a key, and each key has as many native calls as spans. */
  ghost predicate OneToOne(natives: seq<Option<Key>>, spans: seq<Span>) {
    && (forall j :: 0 <= j < |natives| ==> natives[j].Some?)
    && (forall k :: Occurrences(natives, k) == |OfKey(spans, k)|)
  }

  lemma {:induction false} FindOccurrence(natives: seq<Option<Key>>, k: Key, n: nat) returns (j: nat)
    requires n < Occurrences(natives, k)
    ensures j < |natives| && natives[j] == Some(k) && Occurrences(natives[..j], k) == n
  {
    var init := natives[..|natives| - 1];
    if n < Occurrences(init, k) {
      j := FindOccurrence(init, k, n);
      assert init[..j] == natives[..j];
    } else {
      j := |natives| - 1;
    }
  }

  lemma LeftIsExcess(natives: seq<Option<Key>>, spans: seq<Span>, k: Key)
    ensures QueueAt(MatchAll(natives, spans).queues, k) != [] <==> Occurrences(natives, k) < |OfKey(spans, k)|
  {
    QueueAfter(QueuesOf(SortedSpans(spans)), natives, k);
    QueuesHoldSpans(SortedSpans(spans), k);
    SortingCountsKey(spans, k);
  }

  lemma TooFewSpansIsMissing(natives: seq<Option<Key>>, spans: seq<Span>, k: Key)
    requires Occurrences(natives, k) > |OfKey(spans, k)|
    ensures Missing(MatchAll(natives, spans))
  {
    SortingCountsKey(spans, k);
    var j := FindOccurrence(natives, k, |OfKey(spans, k)|);
    MatchingIsFirstComeFirstServed(natives, spans, j);
    assert MatchAll(natives, spans).given[j].None?;
  }

  lemma KeylessIsMissing(natives: seq<Option<Key>>, spans: seq<Span>, j: nat)
    requires j < |natives| && natives[j].None?
    ensures Missing(MatchAll(natives, spans))
  {
    MatchingIsFirstComeFirstServed(natives, spans, j);
    assert MatchAll(natives, spans).given[j].None?;
  }

  lemma EnoughSpansMeansNoMissing(natives: seq<Option<Key>>, spans: seq<Span>)
    requires OneToOne(natives, spans)
    ensures !Missing(MatchAll(natives, spans))
  {
    var given := MatchAll(natives, spans).given;
    QueueAfter(QueuesOf(SortedSpans(spans)), natives, ("", ""));
    forall j | 0 <= j < |given|
      ensures given[j].Some?
    {
      var k := natives[j].value;
      MatchingIsFirstComeFirstServed(natives, spans, j);
      OccurrencesGrow(natives, j, k);
      SortingCountsKey(spans, k);
    }
  }

  lemma AllServedIsOneToOne(natives: seq<Option<Key>>, spans: seq<Span>)
    requires !Missing(MatchAll(natives, spans)) && !LeftOver(MatchAll(natives, spans))
    ensures OneToOne(natives, spans)
  {
    forall j | 0 <= j < |natives|
      ensures natives[j].Some?
    {
      if natives[j].None? {
        KeylessIsMissing(natives, spans, j);
      }
    }
    forall k
      ensures Occurrences(natives, k) == |OfKey(spans, k)|
    {
      LeftIsExcess(natives, spans, k);
      if Occurrences(natives, k) > |OfKey(spans, k)| {
        TooFewSpansIsMissing(natives, spans, k);
      }
    }
  }

  lemma OneToOneLeavesNothing(natives: seq<Option<Key>>, spans: seq<Span>)
    requires OneToOne(natives, spans)
    ensures !LeftOver(MatchAll(natives, spans))
  {
    forall k
      ensures QueueAt(MatchAll(natives, spans).queues, k) == []
    {
      LeftIsExcess(natives, spans, k);
    }
  }

  /** Integrity passes exactly when pairing raised no issue and calls and spans match one to one. */
  lemma PassesExactlyWhenOneToOne(natives: seq<Option<Key>>, checked: Checked)
    ensures Passed(natives, checked) <==> checked.issues == [] && OneToOne(natives, checked.spans)
  {
    var m := MatchAll(natives, checked.spans);
    if !Missing(m) && !LeftOver(m) {
      AllServedIsOneToOne(natives, checked.spans);
    } else if OneToOne(natives, checked.spans) {
      EnoughSpansMeansNoMissing(natives, checked.spans);
      OneToOneLeavesNothing(natives, checked.spans);
    }
  }
}
