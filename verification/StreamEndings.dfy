/**
 How a translated stream ends, said on the atoms of the chunks: failed, incomplete or completed, with which
 reason, usage and output.
 */
module StreamEndings {
  import opened Sequences
  import opened ResponsesStream
  import opened StreamChannels

  ghost predicate HasCall(atoms: seq<Atom>) {
    exists a :: a in atoms && a.Tool?
  }

  ghost predicate FinishedWith(atoms: seq<Atom>, reason: string) {
    Finish(reason) in atoms
  }

  /** No finish reason, an unknown one, "tool_calls" without a call, or "stop" with one. */
  ghost predicate IsUnfinished(atoms: seq<Atom>) {
    || (forall reason :: !FinishedWith(atoms, reason))
    || (exists reason :: FinishedWith(atoms, reason)
                         && reason !in {"stop", "tool_calls", "length", "content_filter"})
    || (FinishedWith(atoms, "tool_calls") && !HasCall(atoms))
    || (FinishedWith(atoms, "stop") && HasCall(atoms))
  }

  ghost predicate IsCut(atoms: seq<Atom>) {
    FinishedWith(atoms, "length") || FinishedWith(atoms, "content_filter")
  }

  lemma {:induction false} ChannelOfCall(atoms: seq<Atom>, i: int)
    ensures CallOf(atoms, i).Some? <==> exists a :: a in atoms && a.Tool? && a.index == i
    ensures CallOf(atoms, i).Some? ==> CallOf(atoms, i).value.index == i
  {
    if atoms != [] {
      var init, last := atoms[..|atoms| - 1], atoms[|atoms| - 1];
      assert atoms == init + [last];
      ChannelOfCall(init, i);
      if CallOf(init, i).Some? {
        var a :| a in init && a.Tool? && a.index == i;
        assert a in atoms;
      } else if CallIn(last, i).Some? {
        assert last in atoms;
      }
    }
  }

  lemma OneReason(atoms: seq<Atom>, reason: string)
    requires !Troubled(atoms)
    ensures FinishedWith(atoms, reason) <==> FinishOf(atoms) == Some(reason)
  {
    FinishIsMember(atoms);
  }

  lemma ItemsAreCalls(atoms: seq<Atom>)
    requires !Troubled(atoms)
    ensures Run(atoms).items != map[] <==> HasCall(atoms)
    ensures forall i :: i in Run(atoms).items <==> CallOf(atoms, i).Some?
    ensures forall i <- Run(atoms).items :: CallOf(atoms, i) == Some(Run(atoms).items[i])
                                             && Run(atoms).items[i].index == i
  {
    RunReadsChannels(atoms);
    var s := Run(atoms);
    forall i
      ensures i in s.items <==> CallOf(atoms, i).Some?
      ensures i in s.items ==> CallOf(atoms, i) == Some(s.items[i]) && s.items[i].index == i
    {
      assert ReadsCall(s, atoms, i);
      ChannelOfCall(atoms, i);
    }
    if HasCall(atoms) {
      var a :| a in atoms && a.Tool?;
      ChannelOfCall(atoms, a.index);
      assert a.index in s.items;
    }
    if s.items != map[] {
      assert s.items.Keys == {} ==> s.items == map[];
      var i := Member(s.items.Keys);
      ChannelOfCall(atoms, i);
    }
  }

  /** The status of a reply: cut off, or complete. */
  ghost predicate HasStatus(atoms: seq<Atom>, status: Status) {
    status == if IsCut(atoms) then Incomplete else Completed
  }

  ghost predicate HasReason(atoms: seq<Atom>, reason: string) {
    && (FinishedWith(atoms, "length") ==> reason == "max_output_tokens")
    && (FinishedWith(atoms, "content_filter") ==> reason == "content_filter")
    && (!IsCut(atoms) ==> reason == "")
  }

  /** The last usage report counts, and without one all counts are zero. */
  ghost predicate HasUsage(atoms: seq<Atom>, usage: Usage) {
    && (forall k :: LastUse(atoms, k) ==>
          usage == if atoms[k].usage.Some? then atoms[k].usage.value else Usage(0, 0, 0, 0, 0))
    && ((forall k :: 0 <= k < |atoms| ==> !atoms[k].Use?) ==> usage == Usage(0, 0, 0, 0, 0))
  }

  ghost predicate LastUse(atoms: seq<Atom>, k: int) {
    0 <= k < |atoms| && atoms[k].Use? && forall j :: k < j < |atoms| ==> !atoms[j].Use?
  }

  lemma {:induction false} UsedInIsLast(atoms: seq<Atom>)
    ensures UsedIn(atoms).None? <==> forall k :: 0 <= k < |atoms| ==> !atoms[k].Use?
    ensures forall k :: LastUse(atoms, k) ==> UsedIn(atoms) == Some(atoms[k].usage)
  {
    if atoms != [] {
      var init, last := atoms[..|atoms| - 1], atoms[|atoms| - 1];
      UsedInIsLast(init);
      assert forall k :: 0 <= k < |init| ==> init[k] == atoms[k];
      forall k | LastUse(atoms, k)
        ensures UsedIn(atoms) == Some(atoms[k].usage)
      {
        assert k < |init| ==> !atoms[|init|].Use? && LastUse(init, k);
      }
    }
  }

  /** The calls of a reply: one for each tool index, in increasing order, each with its channel's content. */
  ghost predicate AreCalls(atoms: seq<Atom>, calls: seq<OutputItem>, status: Status) {
    && (forall k :: 0 <= k < |calls| ==>
          && calls[k].FunctionCall? && calls[k].status == status
          && CallOf(atoms, calls[k].item.index) == Some(calls[k].item))
    && (forall j, k :: 0 <= j < k < |calls| ==> calls[j].item.index < calls[k].item.index)
    && (forall i :: CallOf(atoms, i).Some? ==> HasIndex(calls, i))
  }

  ghost predicate HasIndex(calls: seq<OutputItem>, i: int) {
    exists k :: 0 <= k < |calls| && calls[k].FunctionCall? && calls[k].item.index == i
  }

  /** The text as one message, if there is any; then the calls; and with neither, one empty message. */
  ghost predicate HasOutput(atoms: seq<Atom>, output: seq<OutputItem>, status: Status) {
    if TextOf(atoms) == "" && !HasCall(atoms) then output == [Message("", status)]
    else if TextOf(atoms) == "" then AreCalls(atoms, output, status)
    else output != [] && output[0] == Message(TextOf(atoms), status) && AreCalls(atoms, output[1..], status)
  }

  lemma OrderedAreCalls(atoms: seq<Atom>, status: Status)
    requires !Troubled(atoms)
    ensures AreCalls(atoms, CallOutput(Ordered(Run(atoms)), status), status)
  {
    var s := Run(atoms);
    ItemsAreCalls(atoms);
    SortedKeysAreKeys(s.items.Keys);
    var keys, calls := SortedKeys(s.items.Keys), CallOutput(Ordered(s), status);
    forall k | 0 <= k < |calls|
      ensures calls[k].item.index == keys[k] && CallOf(atoms, keys[k]) == Some(calls[k].item)
    {
      assert keys[k] in keys;
    }
    forall i | CallOf(atoms, i).Some?
      ensures HasIndex(calls, i)
    {
      assert i in keys;
      var k :| 0 <= k < |keys| && keys[k] == i;
      assert calls[k].item.index == i;
    }
  }

  lemma OutputIsRight(atoms: seq<Atom>)
    requires !Troubled(atoms)
    ensures HasOutput(atoms, Output(Run(atoms)), StatusOf(Run(atoms)))
  {
    var s := Run(atoms);
    RunReadsChannels(atoms);
    ItemsAreCalls(atoms);
    OrderedAreCalls(atoms, StatusOf(s));
    if s.started {
      assert Output(s)[1..] == CallOutput(Ordered(s), StatusOf(s));
    } else if s.items != map[] {
      assert Output(s) == CallOutput(Ordered(s), StatusOf(s));
    }
  }

  lemma StatusIsRight(atoms: seq<Atom>)
    requires !Troubled(atoms)
    ensures HasStatus(atoms, StatusOf(Run(atoms))) && HasReason(atoms, ReasonOf(Run(atoms)))
    ensures FinishIsRefused(Run(atoms)) <==> IsUnfinished(atoms)
  {
    RunReadsChannels(atoms);
    ItemsAreCalls(atoms);
    FinishIsMember(atoms);
    OneReason(atoms, "length");
    OneReason(atoms, "content_filter");
    OneReason(atoms, "stop");
    OneReason(atoms, "tool_calls");
    if FinishOf(atoms).Some? {
      OneReason(atoms, FinishOf(atoms).value);
    }
  }

  /**
   For every stream: the reply fails exactly on trouble while reading, or on a missing, unknown or contradicted
   finish reason; it is incomplete exactly when cut off, with the reason; and usage and output are what the atoms say.
   */
  lemma EndsAsTheAtomsSay(atoms: seq<Atom>)
    ensures var events := Translate(atoms);
            events != [] && events[|events| - 1].body.Terminal?
    ensures var events := Translate(atoms); var ending := events[|events| - 1].body.ending;
            && (ending == EndFailed(StreamError) <==> Troubled(atoms))
            && (ending == EndFailed(FinishError) <==> !Troubled(atoms) && IsUnfinished(atoms))
            && (ending.EndDone? ==>
                  && HasStatus(atoms, ending.status) && HasReason(atoms, ending.reason)
                  && HasUsage(atoms, ending.usage) && HasOutput(atoms, ending.output, ending.status))
  {
    StreamIsNumberedAndEndsOnce(atoms);
    RunReadsChannels(atoms);
    if !Troubled(atoms) {
      StatusIsRight(atoms);
      OutputIsRight(atoms);
      UsedInIsLast(atoms);
    }
  }
}
