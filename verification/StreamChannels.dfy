/**
 What a stream's final reply depends on: the text, and per tool index the name,
 the arguments and the id, each taken on its own. How the deltas were cut, and how
 the channels were interleaved, does not matter.
 */
module StreamChannels {
  import opened Sequences
  import opened ResponsesStream

  function TextOf(atoms: seq<Atom>): string {
    if atoms == [] then ""
    else
      var last := atoms[|atoms| - 1];
      TextOf(atoms[..|atoms| - 1]) + if last.Text? then last.text else ""
  }

  /** The channel of one tool index; None when the stream never mentions it. */
  function CallOf(atoms: seq<Atom>, i: int): Option<Item> {
    if atoms == [] then None
    else Joined(CallOf(atoms[..|atoms| - 1], i), CallIn(atoms[|atoms| - 1], i))
  }

  function CallIn(a: Atom, i: int): Option<Item> {
    if a.Tool? && a.index == i then
      Some(Item(i, if a.id == "" then Generated else Given(a.id), a.name, a.arguments))
    else None
  }

  /** Names and arguments are appended; a later id replaces an earlier one. */
  function Joined(a: Option<Item>, b: Option<Item>): Option<Item> {
    if a.None? then b
    else if b.None? then a
    else
      var (x, y) := (a.value, b.value);
      Some(Item(x.index, if y.callId.Given? then y.callId else x.callId, x.name + y.name, x.arguments + y.arguments))
  }

  function FinishOf(atoms: seq<Atom>): Option<string> {
    if atoms == [] then None
    else
      var last := atoms[|atoms| - 1];
      if last.Finish? then Some(last.reason) else FinishOf(atoms[..|atoms| - 1])
  }

  function UsedIn(atoms: seq<Atom>): Option<Option<Usage>> {
    if atoms == [] then None
    else
      var last := atoms[|atoms| - 1];
      if last.Use? then Some(last.usage) else UsedIn(atoms[..|atoms| - 1])
  }

  /** A failed read, or two different finish reasons. */
  ghost predicate Troubled(atoms: seq<Atom>) {
    Raise in atoms || exists q, r :: Finish(q) in atoms && Finish(r) in atoms && q != r
  }

  // ----- The run reads the channels -----

  ghost predicate Reads(s: State, atoms: seq<Atom>) {
    && s.text == TextOf(atoms)
    && (s.started <==> s.text != "")
    && s.finish == FinishOf(atoms)
    && s.usage == (if UsedIn(atoms).Some? then UsedIn(atoms).value else None)
  }

  ghost predicate ReadsCall(s: State, atoms: seq<Atom>, i: int) {
    CallOf(atoms, i) == if i in s.items then Some(s.items[i]) else None
  }

  lemma ToolReads(s: State, atoms: seq<Atom>, a: Atom)
    requires Reads(s, atoms) && a.Tool?
    ensures Reads(Step(s, a), atoms + [a])
  {
    assert (atoms + [a])[..|atoms|] == atoms;
    assert TextOf(atoms) + "" == TextOf(atoms);
  }

  lemma TextReads(s: State, atoms: seq<Atom>, a: Atom)
    requires Reads(s, atoms) && a.Text? && !s.raised
    ensures Reads(Step(s, a), atoms + [a])
  {
    assert (atoms + [a])[..|atoms|] == atoms;
    if a.text == "" {
      assert TextOf(atoms) + "" == TextOf(atoms);
    }
  }

  lemma OtherReads(s: State, atoms: seq<Atom>, a: Atom)
    requires Reads(s, atoms) && !a.Text? && !a.Tool? && !Step(s, a).raised
    ensures Reads(Step(s, a), atoms + [a])
  {
    assert (atoms + [a])[..|atoms|] == atoms;
    assert TextOf(atoms) + "" == TextOf(atoms);
  }

  lemma StepReads(s: State, atoms: seq<Atom>, atom: Atom)
    requires Reads(s, atoms) && !Step(s, atom).raised
    ensures Reads(Step(s, atom), atoms + [atom])
  {
    if atom.Tool? {
      ToolReads(s, atoms, atom);
    } else if atom.Text? {
      TextReads(s, atoms, atom);
    } else {
      OtherReads(s, atoms, atom);
    }
  }

  lemma ToolReadsCall(s: State, atoms: seq<Atom>, a: Atom, i: int)
    requires ReadsCall(s, atoms, i) && a.Tool? && !s.raised && (i in s.items ==> s.items[i].index == i)
    ensures ReadsCall(Step(s, a), atoms + [a], i)
  {
    assert (atoms + [a])[..|atoms|] == atoms;
    var item := WithItem(s, a.index, a.id).items[a.index];
    if i == a.index && i !in s.items {
      assert "" + a.name == a.name && "" + a.arguments == a.arguments;
      assert item == Item(i, if a.id == "" then Generated else Given(a.id), "", "");
    }
  }

  lemma StepReadsCall(s: State, atoms: seq<Atom>, atom: Atom, i: int)
    requires ReadsCall(s, atoms, i) && !s.raised && (i in s.items ==> s.items[i].index == i)
    ensures ReadsCall(Step(s, atom), atoms + [atom], i)
  {
    if atom.Tool? {
      ToolReadsCall(s, atoms, atom, i);
    } else {
      assert (atoms + [atom])[..|atoms|] == atoms;
    }
  }

  lemma {:induction false} FinishIsMember(atoms: seq<Atom>)
    ensures FinishOf(atoms).Some? ==> Finish(FinishOf(atoms).value) in atoms
    ensures FinishOf(atoms).None? ==> forall r :: Finish(r) !in atoms
  {
    if atoms != [] {
      FinishIsMember(atoms[..|atoms| - 1]);
      assert atoms == atoms[..|atoms| - 1] + [atoms[|atoms| - 1]];
    }
  }

  lemma TroubleGrows(atoms: seq<Atom>, atom: Atom)
    requires !Troubled(atoms)
    ensures Troubled(atoms + [atom]) <==>
              || atom.Raise?
              || (atom.Finish? && FinishOf(atoms).Some? && FinishOf(atoms).value != atom.reason)
  {
    FinishIsMember(atoms);
    var more := atoms + [atom];
    assert forall x :: x in more <==> x in atoms || x == atom;
    if atom.Finish? && FinishOf(atoms).Some? && FinishOf(atoms).value != atom.reason {
      assert Finish(FinishOf(atoms).value) in more && Finish(atom.reason) in more;
    }
  }

  lemma TroubleStays(atoms: seq<Atom>, atom: Atom)
    requires Troubled(atoms)
    ensures Troubled(atoms + [atom])
  {
    if Raise !in atoms {
      var q, r :| Finish(q) in atoms && Finish(r) in atoms && q != r;
      assert Finish(q) in atoms + [atom] && Finish(r) in atoms + [atom];
    }
  }

  /** The run fails exactly on a failed read or on conflicting finish reasons; otherwise it holds the channels. */
  lemma {:induction false} RunReadsChannels(atoms: seq<Atom>)
    ensures Run(atoms).raised <==> Troubled(atoms)
    ensures !Run(atoms).raised ==> Reads(Run(atoms), atoms) && forall i :: ReadsCall(Run(atoms), atoms, i)
  {
    if atoms != [] {
      var init, last := atoms[..|atoms| - 1], atoms[|atoms| - 1];
      var s := Run(init);
      assert atoms == init + [last];
      RunReadsChannels(init);
      if s.raised {
        TroubleStays(init, last);
      } else {
        TroubleGrows(init, last);
        assert Step(s, last).raised <==> Troubled(atoms);
        if !Step(s, last).raised {
          StepReads(s, init, last);
          forall i
            ensures ReadsCall(Run(atoms), atoms, i)
          {
            RunTells(init, i);
            assert ReadsCall(s, init, i);
            StepReadsCall(s, init, last, i);
          }
        }
      }
    }
  }

  // ----- Equal channels, equal reply -----

  ghost predicate SameChannels(a: seq<Atom>, b: seq<Atom>) {
    && TextOf(a) == TextOf(b)
    && FinishOf(a) == FinishOf(b)
    && UsedIn(a) == UsedIn(b)
    && (forall i :: CallOf(a, i) == CallOf(b, i))
    && (Raise in a <==> Raise in b)
    && (forall r :: Finish(r) in a <==> Finish(r) in b)
  }

  lemma SameItems(s: State, t: State, a: seq<Atom>, b: seq<Atom>)
    requires (forall i :: ReadsCall(s, a, i)) && (forall i :: ReadsCall(t, b, i))
    requires forall i :: CallOf(a, i) == CallOf(b, i)
    ensures s.items == t.items
  {
    forall i
      ensures i in s.items <==> i in t.items
      ensures i in s.items && i in t.items ==> s.items[i] == t.items[i]
    {
      assert ReadsCall(s, a, i) && ReadsCall(t, b, i);
    }
  }

  lemma EndingIgnoresEvents(s: State, t: State)
    requires t == s.(events := t.events, sequence := t.sequence)
    ensures EndingOf(s) == EndingOf(t)
  {
    assert Ordered(s) == Ordered(t);
  }

  lemma SameChannelsSameEnding(a: seq<Atom>, b: seq<Atom>)
    requires SameChannels(a, b)
    ensures EndingOf(Run(a)) == EndingOf(Run(b))
  {
    RunReadsChannels(a);
    RunReadsChannels(b);
    assert Troubled(a) <==> Troubled(b);
    if !Run(a).raised {
      SameItems(Run(a), Run(b), a, b);
      EndingIgnoresEvents(Run(a), Run(b));
    }
  }

  lemma JoinedIsAssociative(a: Option<Item>, b: Option<Item>, c: Option<Item>)
    ensures Joined(Joined(a, b), c) == Joined(a, Joined(b, c))
  {
    if a.Some? && b.Some? && c.Some? {
      assert a.value.name + b.value.name + c.value.name == a.value.name + (b.value.name + c.value.name);
      assert a.value.arguments + b.value.arguments + c.value.arguments
          == a.value.arguments + (b.value.arguments + c.value.arguments);
    }
  }

  lemma {:induction false} ChannelsConcat(a: seq<Atom>, b: seq<Atom>, i: int)
    ensures TextOf(a + b) == TextOf(a) + TextOf(b)
    ensures FinishOf(a + b) == if FinishOf(b).Some? then FinishOf(b) else FinishOf(a)
    ensures UsedIn(a + b) == if UsedIn(b).Some? then UsedIn(b) else UsedIn(a)
    ensures CallOf(a + b, i) == Joined(CallOf(a, i), CallOf(b, i))
  {
    if b == [] {
      assert a + b == a;
    } else {
      var init, last := b[..|b| - 1], b[|b| - 1];
      ChannelsConcat(a, init, i);
      assert (a + b)[..|a + b| - 1] == a + init;
      JoinedIsAssociative(CallOf(a, i), CallOf(init, i), CallIn(last, i));
    }
  }

  lemma SameChannelsInContext(pre: seq<Atom>, u: seq<Atom>, v: seq<Atom>, post: seq<Atom>)
    requires SameChannels(u, v)
    ensures SameChannels(pre + u + post, pre + v + post)
  {
    forall i
      ensures CallOf(pre + u + post, i) == CallOf(pre + v + post, i)
    {
      ChannelsConcat(pre, u, i);
      ChannelsConcat(pre, v, i);
      ChannelsConcat(pre + u, post, i);
      ChannelsConcat(pre + v, post, i);
    }
    ChannelsConcat(pre, u, 0);
    ChannelsConcat(pre, v, 0);
    ChannelsConcat(pre + u, post, 0);
    ChannelsConcat(pre + v, post, 0);
    assert forall x :: x in pre + u + post <==> x in pre || x in u || x in post;
    assert forall x :: x in pre + v + post <==> x in pre || x in v || x in post;
  }

  /** Replacing any stretch of a stream by one with the same channels leaves the reply unchanged. */
  lemma RecuttingKeepsReply(pre: seq<Atom>, u: seq<Atom>, v: seq<Atom>, post: seq<Atom>)
    requires SameChannels(u, v)
    ensures EndingOf(Run(pre + u + post)) == EndingOf(Run(pre + v + post))
  {
    SameChannelsInContext(pre, u, v, post);
    SameChannelsSameEnding(pre + u + post, pre + v + post);
  }

  lemma ChannelsOfTwo(a: Atom, b: Atom, i: int)
    ensures TextOf([a]) == if a.Text? then a.text else ""
    ensures CallOf([a], i) == CallIn(a, i)
    ensures FinishOf([a]) == if a.Finish? then Some(a.reason) else None
    ensures UsedIn([a]) == if a.Use? then Some(a.usage) else None
    ensures TextOf([a, b]) == TextOf([a]) + TextOf([b])
    ensures CallOf([a, b], i) == Joined(CallIn(a, i), CallIn(b, i))
    ensures FinishOf([a, b]) == if b.Finish? then Some(b.reason) else FinishOf([a])
    ensures UsedIn([a, b]) == if b.Use? then Some(b.usage) else UsedIn([a])
  {
    assert [a][..0] == [] && [b][..0] == [] && [a, b][..1] == [a];
    assert "" + TextOf([a]) == TextOf([a]);
  }

  /** A text delta may be cut in two anywhere. */
  lemma CuttingText(x: string, y: string)
    ensures SameChannels([Text(x + y)], [Text(x), Text(y)])
  {
    forall k
      ensures CallOf([Text(x + y)], k) == CallOf([Text(x), Text(y)], k)
    {
      ChannelsOfTwo(Text(x + y), Raise, k);
      ChannelsOfTwo(Text(x), Text(y), k);
    }
    ChannelsOfTwo(Text(x + y), Raise, 0);
    ChannelsOfTwo(Text(x), Text(y), 0);
    ChannelsOfTwo(Text(y), Raise, 0);
  }

  /** A tool delta may be cut in two anywhere; the id stays with the first part. */
  lemma CuttingTool(i: int, id: string, n1: string, n2: string, a1: string, a2: string)
    ensures SameChannels([Tool(i, id, n1 + n2, a1 + a2)], [Tool(i, id, n1, a1), Tool(i, "", n2, a2)])
  {
    var whole, first, second := Tool(i, id, n1 + n2, a1 + a2), Tool(i, id, n1, a1), Tool(i, "", n2, a2);
    forall k
      ensures CallOf([whole], k) == CallOf([first, second], k)
    {
      ChannelsOfTwo(whole, Raise, k);
      ChannelsOfTwo(first, second, k);
    }
    ChannelsOfTwo(whole, Raise, 0);
    ChannelsOfTwo(first, second, 0);
    ChannelsOfTwo(second, Raise, 0);
  }

  /** Text and tool deltas may trade places, and so may deltas of different tools. */
  lemma SwappingKeepsChannels(a: Atom, b: Atom)
    requires a.Tool? && (b.Text? || (b.Tool? && b.index != a.index))
    ensures SameChannels([a, b], [b, a])
  {
    forall k
      ensures CallOf([a, b], k) == CallOf([b, a], k)
    {
      ChannelsOfTwo(a, b, k);
      ChannelsOfTwo(b, a, k);
    }
    ChannelsOfTwo(a, b, 0);
    ChannelsOfTwo(b, a, 0);
    assert TextOf([b]) + "" == TextOf([b]) == "" + TextOf([b]);
  }
}
