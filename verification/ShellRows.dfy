/**
 What a shell span says, said on the rows it was paired from.
 */
module ShellRows {
  import opened Sequences
  import opened ShellSpans

  predicate IsStartOf(row: Row, id: string) {
    row.Start? && row.id == id
  }

  predicate IsEndOf(row: Row, id: string) {
    row.End? && row.id == id
  }

  ghost predicate FirstStart(rows: seq<Row>, id: string, i: nat) {
    i < |rows| && IsStartOf(rows[i], id) && forall k :: 0 <= k < i ==> !IsStartOf(rows[k], id)
  }

  ghost predicate FirstEnd(rows: seq<Row>, id: string, j: nat) {
    j < |rows| && IsEndOf(rows[j], id) && forall k :: 0 <= k < j ==> !IsEndOf(rows[k], id)
  }

  /** A later end row's own text counts; without one, the start row's. A later start row's counts in any case. */
  function Later(i: nat, start: string, j: nat, end: string): string {
    if i < j && end != "" then end else start
  }

  /** The span's start, end, texts and first row are those of the first start and the first end row of its id. */
  ghost predicate Says(rows: seq<Row>, id: string, span: Span) {
    && span.id == id
    && (forall i: nat :: FirstStart(rows, id, i) ==> span.start == Some(rows[i].time))
    && (forall j: nat :: FirstEnd(rows, id, j) ==> span.end == Some(rows[j].time))
    && (forall i: nat, j: nat :: FirstStart(rows, id, i) && FirstEnd(rows, id, j) ==>
          && span.row == (if i < j then i else j)
          && span.command == Later(i, rows[i].command, j, rows[j].command)
          && span.cwd == Later(i, rows[i].cwd, j, rows[j].cwd))
    && (forall i: nat :: FirstStart(rows, id, i) && !HasEnd(rows, id) ==>
          span.row == i && span.command == rows[i].command && span.cwd == rows[i].cwd && span.end == None)
    && (forall j: nat :: FirstEnd(rows, id, j) && !HasStart(rows, id) ==>
          span.row == j && span.command == rows[j].command && span.cwd == rows[j].cwd && span.start == None)
  }

  lemma FirstOfMore(rows: seq<Row>, row: Row, id: string, i: nat)
    ensures FirstStart(rows + [row], id, i) <==>
            FirstStart(rows, id, i) || (i == |rows| && IsStartOf(row, id) && !HasStart(rows, id))
    ensures FirstEnd(rows + [row], id, i) <==>
            FirstEnd(rows, id, i) || (i == |rows| && IsEndOf(row, id) && !HasEnd(rows, id))
  {
    var all := rows + [row];
    assert all[|rows|] == row && forall k :: 0 <= k < |rows| ==> all[k] == rows[k];
  }

  lemma FirstsAreUnique(rows: seq<Row>, id: string, i: nat, j: nat)
    ensures FirstStart(rows, id, i) && FirstStart(rows, id, j) ==> i == j
    ensures FirstEnd(rows, id, i) && FirstEnd(rows, id, j) ==> i == j
    ensures FirstStart(rows, id, i) ==> HasStart(rows, id)
    ensures FirstEnd(rows, id, i) ==> HasEnd(rows, id)
  {
  }

  /** The row changes nothing about this id. */
  predicate IsIdle(b: Build, row: Row, id: string) {
    || row.Unrelated? || row.id != id
    || (row.Start? && id in b.spans && b.spans[id].start.Some?)
    || (row.End? && id in b.spans && b.spans[id].end.Some?)
  }

  lemma IdleRowKeepsSpan(b: Build, index: nat, row: Row, id: string)
    requires Listed(b) && IsIdle(b, row, id) && id != ""
    ensures var c := Marked(b, index, row);
            (id in c.spans <==> id in b.spans) && (id in b.spans ==> c.spans[id] == b.spans[id])
  {
  }

  lemma IdleRowKeepsFirsts(rows: seq<Row>, row: Row, id: string, i: nat)
    requires row.Unrelated? || row.id != id || (row.Start? && HasStart(rows, id)) || (row.End? && HasEnd(rows, id))
    ensures FirstStart(rows + [row], id, i) <==> FirstStart(rows, id, i)
    ensures FirstEnd(rows + [row], id, i) <==> FirstEnd(rows, id, i)
    ensures HasStart(rows + [row], id) <==> HasStart(rows, id)
    ensures HasEnd(rows + [row], id) <==> HasEnd(rows, id)
  {
    FirstOfMore(rows, row, id, i);
    StartsMore(rows, row, id);
  }

  lemma SaysAfterIdle(rows: seq<Row>, row: Row, id: string, span: Span)
    requires Says(rows, id, span)
    requires row.Unrelated? || row.id != id || (row.Start? && HasStart(rows, id)) || (row.End? && HasEnd(rows, id))
    ensures Says(rows + [row], id, span)
  {
    var all := rows + [row];
    assert forall k :: 0 <= k < |rows| ==> all[k] == rows[k];
    forall i: nat
      ensures FirstStart(all, id, i) <==> FirstStart(rows, id, i)
      ensures FirstEnd(all, id, i) <==> FirstEnd(rows, id, i)
      ensures HasStart(all, id) <==> HasStart(rows, id)
      ensures HasEnd(all, id) <==> HasEnd(rows, id)
    {
      IdleRowKeepsFirsts(rows, row, id, i);
    }
  }

  lemma {:induction false} FirstStartExists(rows: seq<Row>, id: string)
    ensures HasStart(rows, id) ==> exists i: nat :: FirstStart(rows, id, i)
    ensures HasEnd(rows, id) ==> exists j: nat :: FirstEnd(rows, id, j)
  {
    if rows != [] {
      var init, last := rows[..|rows| - 1], rows[|rows| - 1];
      assert rows == init + [last];
      FirstStartExists(init, id);
      StartsMore(init, last, id);
      FirstOfMore(init, last, id, |init|);
      if HasStart(init, id) {
        var i: nat :| FirstStart(init, id, i);
        FirstOfMore(init, last, id, i);
      }
      if HasEnd(init, id) {
        var j: nat :| FirstEnd(init, id, j);
        FirstOfMore(init, last, id, j);
      }
    }
  }

  lemma NewStartSays(rows: seq<Row>, row: Row, id: string, was: Span, span: Span)
    requires IsStartOf(row, id) && !HasStart(rows, id) && id != ""
    requires if HasEnd(rows, id) then Says(rows, id, was) else was == Span(id, |rows|, None, None, "", "")
    requires span == was.(id := id, start := Some(row.time), command := row.command, cwd := row.cwd)
    ensures Says(rows + [row], id, span)
  {
    var all := rows + [row];
    assert all[|rows|] == row && forall k :: 0 <= k < |rows| ==> all[k] == rows[k];
    StartsMore(rows, row, id);
    FirstStartExists(rows, id);
    forall i: nat
      ensures FirstStart(all, id, i) <==> i == |rows|
      ensures FirstEnd(all, id, i) <==> FirstEnd(rows, id, i)
    {
      FirstOfMore(rows, row, id, i);
      FirstsAreUnique(rows, id, i, i);
    }
  }

  lemma NewEndSays(rows: seq<Row>, row: Row, id: string, was: Span, span: Span)
    requires IsEndOf(row, id) && !HasEnd(rows, id) && id != ""
    requires if HasStart(rows, id) then Says(rows, id, was) else was == Span(id, |rows|, None, None, "", "")
    requires span == was.(id := id, end := Some(row.time), command := Or(row.command, was.command),
                          cwd := Or(row.cwd, was.cwd))
    ensures Says(rows + [row], id, span)
  {
    var all := rows + [row];
    assert all[|rows|] == row && forall k :: 0 <= k < |rows| ==> all[k] == rows[k];
    StartsMore(rows, row, id);
    FirstStartExists(rows, id);
    forall i: nat
      ensures FirstEnd(all, id, i) <==> i == |rows|
      ensures FirstStart(all, id, i) <==> FirstStart(rows, id, i)
    {
      FirstOfMore(rows, row, id, i);
      FirstsAreUnique(rows, id, i, i);
    }
  }

  /** Every span says what the first start row and the first end row of its id say, and nothing else. */
  lemma {:induction false} SpansSayWhatRowsSay(rows: seq<Row>, id: string)
    requires id != ""
    ensures var b := BuildAll(rows);
            && (id in b.spans <==> HasStart(rows, id) || HasEnd(rows, id))
            && (id in b.spans ==> Says(rows, id, b.spans[id]))
  {
    BuildTracks(rows, id);
    if rows != [] {
      var init, last := rows[..|rows| - 1], rows[|rows| - 1];
      assert rows == init + [last];
      var b := BuildAll(init);
      SpansSayWhatRowsSay(init, id);
      BuildTracks(init, id);
      StartsMore(init, last, id);
      if IsIdle(b, last, id) {
        IdleRowKeepsSpan(b, |init|, last, id);
        if id in b.spans {
          SaysAfterIdle(init, last, id, b.spans[id]);
        }
      } else if last.Start? {
        NewStartSays(init, last, id, SpanAt(b, id, |init|), BuildAll(rows).spans[id]);
      } else {
        NewEndSays(init, last, id, SpanAt(b, id, |init|), BuildAll(rows).spans[id]);
      }
    }
  }

  // ----- Which spans are returned -----

  /** Both rows of the id are there and timed, and both of its hashes have 64 characters. */
  ghost predicate Usable(rows: seq<Row>, id: string, i: nat, j: nat) {
    && FirstStart(rows, id, i) && rows[i].time.Some?
    && FirstEnd(rows, id, j) && rows[j].time.Some?
    && |Later(i, rows[i].command, j, rows[j].command)| == 64
    && |Later(i, rows[i].cwd, j, rows[j].cwd)| == 64
  }

  lemma CompleteExactlyWhenUsable(rows: seq<Row>, id: string)
    requires id != "" && id in BuildAll(rows).spans
    ensures IsComplete(BuildAll(rows).spans[id]) <==> exists i: nat, j: nat :: Usable(rows, id, i, j)
  {
    var span := BuildAll(rows).spans[id];
    SpansSayWhatRowsSay(rows, id);
    BuildTracks(rows, id);
    FirstStartExists(rows, id);
    if span.start.Some? && span.end.Some? {
      var i: nat :| FirstStart(rows, id, i);
      var j: nat :| FirstEnd(rows, id, j);
      assert IsComplete(span) ==> Usable(rows, id, i, j);
    }
    if k: nat, l: nat :| Usable(rows, id, k, l) {
      FirstsAreUnique(rows, id, k, k);
      FirstsAreUnique(rows, id, l, l);
    }
  }

  lemma {:induction false} CheckingKeepsComplete(spans: map<string, Span>, order: seq<string>, issues: seq<Issue>,
                                                 id: string)
    requires forall k <- order :: k in spans && spans[k].id == k
    requires Incomplete(id) !in issues
    ensures var c := CheckAll(spans, order, issues);
            && (forall s <- c.spans :: s.id in order && s == spans[s.id] && IsComplete(s))
            && (id in order && IsComplete(spans[id]) ==> spans[id] in c.spans)
            && (Incomplete(id) in c.issues <==> id in order && !IsComplete(spans[id]))
  {
    if order != [] {
      var init, last := order[..|order| - 1], order[|order| - 1];
      assert order == init + [last];
      CheckingKeepsComplete(spans, init, issues, id);
    }
  }

  lemma {:induction false} PairingFindsNoneIncomplete(rows: seq<Row>, id: string)
    ensures Incomplete(id) !in BuildAll(rows).issues
  {
    if rows != [] {
      PairingFindsNoneIncomplete(rows[..|rows| - 1], id);
    }
  }

  /**
   The returned spans are those of the ids whose first start and first end row are both
   there and timed, with two hashes of 64 characters; any other id seen is reported.
   */
  lemma UsableSpansAreReturned(rows: seq<Row>, id: string)
    requires id != ""
    ensures var c, usable := SpansOf(rows), exists i: nat, j: nat :: Usable(rows, id, i, j);
            && (usable <==> exists s <- c.spans :: s.id == id)
            && (Incomplete(id) in c.issues <==> (HasStart(rows, id) || HasEnd(rows, id)) && !usable)
            && (forall s <- c.spans :: s.id == id ==> Says(rows, id, s))
  {
    var b := BuildAll(rows);
    forall k <- b.order
      ensures k in b.spans && b.spans[k].id == k
    {
      BuildTracks(rows, k);
    }
    BuildTracks(rows, id);
    SpansSayWhatRowsSay(rows, id);
    PairingFindsNoneIncomplete(rows, id);
    CheckingKeepsComplete(b.spans, b.order, b.issues, id);
    if id in b.spans {
      CompleteExactlyWhenUsable(rows, id);
    } else if i: nat, j: nat :| Usable(rows, id, i, j) {
      FirstsAreUnique(rows, id, i, i);
      assert false;
    }
  }

  /** The spans queued for matching come by the time of their start row; equal times come in row order. */
  lemma SpansAreQueuedByTime(rows: seq<Row>, i: nat, j: nat)
    requires i < j < |SortedSpans(SpansOf(rows).spans)|
    ensures var s := SortedSpans(SpansOf(rows).spans);
            && s[i].start.Some? && s[i].start.value.Some? && s[j].start.Some? && s[j].start.value.Some?
            && s[i].start.value.value <= s[j].start.value.value
            && (s[i].start.value.value == s[j].start.value.value ==> s[i].row <= s[j].row)
  {
    var b, spans := BuildAll(rows), SpansOf(rows).spans;
    var sorted := SortedSpans(spans);
    SortingSorts(spans);
    forall k <- b.order
      ensures k in b.spans && b.spans[k].id == k
    {
      BuildTracks(rows, k);
    }
    PairingFindsNoneIncomplete(rows, "");
    CheckingKeepsComplete(b.spans, b.order, b.issues, "");
    assert sorted[i] in multiset(sorted) && sorted[j] in multiset(sorted);
    assert sorted[i] in spans && sorted[j] in spans;
    assert NotAfter(sorted[i], sorted[j]);
  }
}
