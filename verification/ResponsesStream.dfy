/**
 The stream transducer: chunks of a Chat completion become the event stream of
 a Responses reply.

 A chunk is reduced to the atoms it contributes, in the order the loops meet
 them. One item exists per tool index, so the random id the source draws for
 an item is named here by that index.
 */
module ResponsesStream {
  import opened Sequences

  // ----- Input -----

  /** `index` is None when it is not a number; absent strings are empty. */
  datatype Call = Call(index: Option<int>, id: string, name: string, arguments: string)
  datatype Delta = Delta(text: string, calls: seq<Call>)
  datatype Choice = Choice(index: Option<int>, finish: Option<string>, delta: Option<Delta>)
  datatype Usage = Usage(input: int, cached: int, output: int, reasoning: int, total: int)
  datatype Chunk = Chunk(usage: Option<Option<Usage>>, choices: seq<Choice>) | Broken

  datatype Atom =
    | Use(usage: Option<Usage>)
    | Finish(reason: string)
    | Text(text: string)
    | Tool(index: int, id: string, name: string, arguments: string)
    | Raise

  function CallAtoms(calls: seq<Call>): seq<Atom> {
    if calls == [] then []
    else
      var c := calls[|calls| - 1];
      CallAtoms(calls[..|calls| - 1])
      + [if c.index.None? then Raise else Tool(c.index.value, c.id, c.name, c.arguments)]
  }

  function DeltaAtoms(d: Delta): seq<Atom> {
    (if d.text == "" then [] else [Text(d.text)]) + CallAtoms(d.calls)
  }

  function ChoiceAtoms(c: Choice): seq<Atom> {
    if c.index.None? then [Raise]
    else if c.index.value != 0 then []
    else
      (if c.finish.None? then [] else [Finish(c.finish.value)])
      + (if c.delta.None? then [] else DeltaAtoms(c.delta.value))
  }

  function ChoicesAtoms(choices: seq<Choice>): seq<Atom> {
    if choices == [] then []
    else ChoicesAtoms(choices[..|choices| - 1]) + ChoiceAtoms(choices[|choices| - 1])
  }

  function ChunkAtoms(chunk: Chunk): seq<Atom> {
    if chunk.Broken? then [Raise]
    else (if chunk.usage.None? then [] else [Use(chunk.usage.value)]) + ChoicesAtoms(chunk.choices)
  }

  function StreamAtoms(chunks: seq<Chunk>): seq<Atom> {
    if chunks == [] then []
    else StreamAtoms(chunks[..|chunks| - 1]) + ChunkAtoms(chunks[|chunks| - 1])
  }

  // ----- Output -----

  datatype CallId = Given(id: string) | Generated
  datatype Item = Item(index: int, callId: CallId, name: string, arguments: string)
  datatype Status = Completed | Incomplete
  datatype OutputItem = Message(text: string, status: Status) | FunctionCall(item: Item, status: Status)
  datatype Failure = StreamError | FinishError
  datatype Ending = EndFailed(failure: Failure) | EndDone(status: Status, reason: string, output: seq<OutputItem>,
      usage: Usage)

  datatype Body =
    | Created
    | InProgress
    | MessageAdded(outputIndex: int)
    | TextDelta(outputIndex: int, delta: string)
    | TextDone(outputIndex: int, text: string)
    | MessageDone(outputIndex: int, message: OutputItem)
    | CallAdded(outputIndex: int, item: Item)
    | ArgumentsDelta(outputIndex: int, index: int, delta: string)
    | ArgumentsDone(outputIndex: int, index: int, name: string, arguments: string)
    | CallDone(outputIndex: int, call: Item, status: Status)
    | Terminal(ending: Ending)

  datatype Event = Event(number: nat, body: Body)

  datatype State = State(
    events: seq<Event>,
    sequence: nat,
    usage: Option<Usage>,
    started: bool,
    text: string,
    items: map<int, Item>,
    finish: Option<string>,
    raised: bool)

  const Opening := Say(Say(State([], 0, None, false, "", map[], None, false), Created), InProgress)

  function Say(s: State, body: Body): State {
    s.(events := s.events + [Event(s.sequence, body)], sequence := s.sequence + 1)
  }

  /** The output position before the tool calls. */
  function Base(s: State): int {
    if s.started then 1 else 0
  }

  function WithText(s: State, text: string): State {
    var a := if s.started then s else Say(s.(started := true), MessageAdded(0));
    Say(a.(text := a.text + text), TextDelta(0, text))
  }

  function NewItem(s: State, item: Item): State {
    Say(s.(items := s.items[item.index := item]), CallAdded(Base(s) + item.index, item))
  }

  function Reidentified(s: State, index: int, id: string): State
    requires index in s.items
  {
    s.(items := s.items[index := s.items[index].(callId := Given(id))])
  }

  function WithItem(s: State, index: int, id: string): (s': State)
    ensures index in s'.items
  {
    if index !in s.items then NewItem(s, Item(index, if id == "" then Generated else Given(id), "", ""))
    else if id != "" then Reidentified(s, index, id)
    else s
  }

  function Grown(s: State, index: int, name: string, arguments: string): State
    requires index in s.items
  {
    var item := s.items[index];
    s.(items := s.items[index := item.(name := item.name + name, arguments := item.arguments + arguments)])
  }

  function WithFunction(s: State, index: int, name: string, arguments: string): State
    requires index in s.items
  {
    var a := Grown(s, index, name, arguments);
    if arguments == "" then a else Say(a, ArgumentsDelta(Base(s) + index, index, arguments))
  }

  function Step(s: State, atom: Atom): State {
    if s.raised then s
    else match atom
      case Use(usage) => s.(usage := usage)
      case Finish(reason) =>
        if s.finish.Some? && s.finish.value != reason then s.(raised := true) else s.(finish := Some(reason))
      case Text(text) => if text == "" then s else WithText(s, text)
      case Tool(index, id, name, arguments) => WithFunction(WithItem(s, index, id), index, name, arguments)
      case Raise => s.(raised := true)
  }

  function RunFrom(s: State, atoms: seq<Atom>): State {
    Fold(Step, s, atoms)
  }

  function Run(atoms: seq<Atom>): State {
    RunFrom(Opening, atoms)
  }

  // ----- Closing -----

  predicate IsIncomplete(s: State) {
    s.finish == Some("length") || s.finish == Some("content_filter")
  }

  function StatusOf(s: State): Status {
    if IsIncomplete(s) then Incomplete else Completed
  }

  predicate FinishIsRefused(s: State) {
    match s.finish
    case None => true
    case Some(reason) =>
      || (reason == "tool_calls" && s.items == map[])
      || (reason == "stop" && s.items != map[])
      || reason !in {"stop", "tool_calls", "length", "content_filter"}
  }

  function SayAll(s: State, bodies: seq<Body>): State {
    Fold(Say, s, bodies)
  }

  function MessageClosing(s: State): seq<Body> {
    if s.started then [TextDone(0, s.text), MessageDone(0, Message(s.text, StatusOf(s)))] else []
  }

  function CallClosing(item: Item, position: int, status: Status): seq<Body> {
    [ArgumentsDone(position, item.index, item.name, item.arguments), CallDone(position, item, status)]
  }

  function CallClosings(items: seq<Item>, base: int, status: Status): seq<Body> {
    if items == [] then []
    else CallClosings(items[..|items| - 1], base, status) + CallClosing(items[|items| - 1], base + |items| - 1, status)
  }

  /** The tool items in the order of their indices. */
  function Ordered(s: State): (items: seq<Item>)
    ensures var keys := SortedKeys(s.items.Keys);
            && |items| == |keys|
            && forall k :: 0 <= k < |keys| ==> keys[k] in s.items && items[k] == s.items[keys[k]]
  {
    SortedKeysAreKeys(s.items.Keys);
    var keys := SortedKeys(s.items.Keys);
    assert forall k :: 0 <= k < |keys| ==> keys[k] in keys;
    seq(|keys|, k requires 0 <= k < |keys| => s.items[keys[k]])
  }

  function CallOutput(items: seq<Item>, status: Status): (output: seq<OutputItem>)
    ensures |output| == |items|
  {
    seq(|items|, k requires 0 <= k < |items| => FunctionCall(items[k], status))
  }

  function Output(s: State): seq<OutputItem> {
    if !s.started && s.items == map[] then [Message("", StatusOf(s))]
    else (if s.started then [Message(s.text, StatusOf(s))] else []) + CallOutput(Ordered(s), StatusOf(s))
  }

  function ReasonOf(s: State): string {
    if s.finish == Some("length") then "max_output_tokens"
    else if s.finish == Some("content_filter") then "content_filter"
    else ""
  }

  function UsageOf(s: State): Usage {
    if s.usage.Some? then s.usage.value else Usage(0, 0, 0, 0, 0)
  }

  function EndingOf(s: State): Ending {
    if s.raised then EndFailed(StreamError)
    else if FinishIsRefused(s) then EndFailed(FinishError)
    else EndDone(StatusOf(s), ReasonOf(s), Output(s), UsageOf(s))
  }

  /** An empty reply still reports one empty message. */
  function BareClosing(s: State): seq<Body> {
    if !s.started && s.items == map[] then [MessageDone(0, Message("", StatusOf(s)))] else []
  }

  function ItemClosings(s: State): seq<Body> {
    MessageClosing(s) + CallClosings(Ordered(s), Base(s), StatusOf(s)) + BareClosing(s)
  }

  function Closing(s: State): seq<Body> {
    (if EndingOf(s).EndFailed? then [] else ItemClosings(s)) + [Terminal(EndingOf(s))]
  }

  function Close(s: State): State {
    SayAll(s, Closing(s))
  }

  function Translate(atoms: seq<Atom>): seq<Event> {
    Close(Run(atoms)).events
  }

  // ----- The loops -----

  lemma RunConcat(s: State, a: seq<Atom>, b: seq<Atom>)
    ensures RunFrom(s, a + b) == RunFrom(RunFrom(s, a), b)
  {
    FoldConcat(Step, s, a, b);
  }

  lemma RunOne(s: State, atom: Atom)
    ensures RunFrom(s, [atom]) == Step(s, atom)
  {
    FoldOne(Step, s, atom);
  }

  lemma {:induction false} RaisedStays(s: State, atoms: seq<Atom>)
    requires s.raised
    ensures RunFrom(s, atoms) == s
  {
    if atoms != [] {
      RaisedStays(s, atoms[..|atoms| - 1]);
    }
  }

  method ConsumeCalls(s0: State, calls: seq<Call>) returns (s: State)
    ensures s == RunFrom(s0, CallAtoms(calls))
  {
    s := s0;
    for i := 0 to |calls|
      invariant s == RunFrom(s0, CallAtoms(calls[..i]))
    {
      var c := calls[i];
      assert calls[..i + 1][..i] == calls[..i];
      ghost var atom := if c.index.None? then Raise else Tool(c.index.value, c.id, c.name, c.arguments);
      RunConcat(s0, CallAtoms(calls[..i]), [atom]);
      RunOne(s, atom);
      if !s.raised {
        if c.index.None? {
          s := s.(raised := true);
        } else {
          s := WithItem(s, c.index.value, c.id);
          s := WithFunction(s, c.index.value, c.name, c.arguments);
        }
      }
    }
    assert calls[..|calls|] == calls;
  }

  method ConsumeChoice(s0: State, c: Choice) returns (s: State)
    ensures s == RunFrom(s0, ChoiceAtoms(c))
  {
    s := s0;
    if s.raised {
      RaisedStays(s0, ChoiceAtoms(c));
      return;
    }
    if c.index.None? {
      RunOne(s, Raise);
      s := s.(raised := true);
      return;
    }
    if c.index.value != 0 {
      return;
    }
    ghost var head: seq<Atom> := if c.finish.None? then [] else [Finish(c.finish.value)];
    if c.finish.Some? {
      RunOne(s, Finish(c.finish.value));
      if s.finish.Some? && s.finish.value != c.finish.value {
        s := s.(raised := true);
        RunConcat(s0, head, ChoiceAtoms(c)[1..]);
        RaisedStays(s, ChoiceAtoms(c)[1..]);
        assert head + ChoiceAtoms(c)[1..] == ChoiceAtoms(c);
        return;
      }
      s := s.(finish := Some(c.finish.value));
    }
    if c.delta.None? {
      assert head + [] == head;
      return;
    }
    ghost var before := s;
    ghost var said: seq<Atom> := if c.delta.value.text == "" then [] else [Text(c.delta.value.text)];
    if c.delta.value.text != "" {
      RunOne(s, Text(c.delta.value.text));
      s := WithText(s, c.delta.value.text);
    }
    RunConcat(before, said, CallAtoms(c.delta.value.calls));
    RunConcat(s0, head, said + CallAtoms(c.delta.value.calls));
    s := ConsumeCalls(s, c.delta.value.calls);
  }

  /** The translation loop over chunks, then the closing events. */
  method TranslateStream(chunks: seq<Chunk>) returns (events: seq<Event>)
    ensures events == Translate(StreamAtoms(chunks))
  {
    var s := Opening;
    for i := 0 to |chunks|
      invariant s == Run(StreamAtoms(chunks[..i]))
    {
      assert chunks[..i + 1][..i] == chunks[..i];
      RunConcat(Opening, StreamAtoms(chunks[..i]), ChunkAtoms(chunks[i]));
      s := ConsumeChunk(s, chunks[i]);
    }
    assert chunks[..|chunks|] == chunks;
    s := CloseStream(s);
    events := s.events;
  }

  method ConsumeChoices(s0: State, choices: seq<Choice>) returns (s: State)
    ensures s == RunFrom(s0, ChoicesAtoms(choices))
  {
    s := s0;
    for i := 0 to |choices|
      invariant s == RunFrom(s0, ChoicesAtoms(choices[..i]))
    {
      assert choices[..i + 1][..i] == choices[..i];
      RunConcat(s0, ChoicesAtoms(choices[..i]), ChoiceAtoms(choices[i]));
      s := ConsumeChoice(s, choices[i]);
    }
    assert choices[..|choices|] == choices;
  }

  method ConsumeChunk(s0: State, chunk: Chunk) returns (s: State)
    ensures s == RunFrom(s0, ChunkAtoms(chunk))
  {
    s := s0;
    if s.raised {
      RaisedStays(s0, ChunkAtoms(chunk));
      return;
    }
    if chunk.Broken? {
      RunOne(s, Raise);
      s := s.(raised := true);
      return;
    }
    ghost var head: seq<Atom> := if chunk.usage.None? then [] else [Use(chunk.usage.value)];
    RunConcat(s0, head, ChoicesAtoms(chunk.choices));
    if chunk.usage.Some? {
      RunOne(s, Use(chunk.usage.value));
      s := s.(usage := chunk.usage.value);
    }
    s := ConsumeChoices(s, chunk.choices);
  }

  lemma SayAllConcat(s: State, a: seq<Body>, b: seq<Body>)
    ensures SayAll(s, a + b) == SayAll(SayAll(s, a), b)
  {
    FoldConcat(Say, s, a, b);
  }

  lemma SayAllOne(s: State, body: Body)
    ensures SayAll(s, [body]) == Say(s, body)
  {
    FoldOne(Say, s, body);
  }

  lemma SayAllTwo(s: State, a: Body, b: Body)
    ensures SayAll(s, [a, b]) == Say(Say(s, a), b)
  {
    assert [a, b] == [a] + [b];
    SayAllConcat(s, [a], [b]);
    SayAllOne(s, a);
    SayAllOne(Say(s, a), b);
  }

  /** The loop over the sorted tool items. */
  method CloseToolItems(s0: State, items: seq<Item>, first: int, status: Status)
    returns (s: State, output: seq<OutputItem>)
    ensures s == SayAll(s0, CallClosings(items, first, status)) && output == CallOutput(items, status)
  {
    s, output := s0, [];
    var outputIndex := first;
    for i := 0 to |items|
      invariant outputIndex == first + i
      invariant s == SayAll(s0, CallClosings(items[..i], first, status)) && output == CallOutput(items[..i], status)
    {
      var item := items[i];
      assert items[..i + 1][..i] == items[..i];
      SayAllConcat(s0, CallClosings(items[..i], first, status), CallClosing(item, outputIndex, status));
      SayAllTwo(s, ArgumentsDone(outputIndex, item.index, item.name, item.arguments),
          CallDone(outputIndex, item, status));
      s := Say(s, ArgumentsDone(outputIndex, item.index, item.name, item.arguments));
      s := Say(s, CallDone(outputIndex, item, status));
      output := output + [FunctionCall(item, status)];
      outputIndex := outputIndex + 1;
    }
    assert items[..|items|] == items;
  }

  method CloseStream(s0: State) returns (s: State)
    ensures s == Close(s0)
  {
    s := s0;
    SayAllOne(s, Terminal(EndingOf(s)));
    assert [] + [Terminal(EndingOf(s))] == [Terminal(EndingOf(s))];
    if s.raised {
      return Say(s, Terminal(EndFailed(StreamError)));
    }
    if FinishIsRefused(s) {
      return Say(s, Terminal(EndFailed(FinishError)));
    }
    var output: seq<OutputItem> := [];
    var status := StatusOf(s);
    var outputIndex := 0;
    if s.started {
      output := output + [Message(s.text, status)];
      SayAllTwo(s, TextDone(0, s.text), MessageDone(0, Message(s.text, status)));
      s := Say(s, TextDone(0, s.text));
      s := Say(s, MessageDone(0, Message(s.text, status)));
      outputIndex := outputIndex + 1;
    }
    assert s == SayAll(s0, MessageClosing(s0));
    ghost var calls' := CallClosings(Ordered(s0), outputIndex, status);
    SayAllConcat(s0, MessageClosing(s0), calls');
    var calls;
    s, calls := CloseToolItems(s, Ordered(s0), outputIndex, status);
    OrderedIsEmptyOrNot(s0);
    output := output + calls;
    SayAllConcat(s0, MessageClosing(s0) + calls', BareClosing(s0));
    SayAllOne(s, MessageDone(0, Message("", status)));
    if output == [] {
      output := output + [Message("", status)];
      s := Say(s, MessageDone(0, Message("", status)));
    }
    assert s == SayAll(s0, ItemClosings(s0)) && output == Output(s0);
    SayAllConcat(s0, ItemClosings(s0), [Terminal(EndingOf(s0))]);
    SayAllOne(s, Terminal(EndingOf(s0)));
    s := Say(s, Terminal(EndDone(status, ReasonOf(s0), output, UsageOf(s0))));
  }

  lemma OrderedIsEmptyOrNot(s: State)
    ensures Ordered(s) == [] <==> s.items == map[]
  {
    SortedKeysAreKeys(s.items.Keys);
    assert s.items.Keys == {} <==> s.items == map[];
  }

  // ----- Numbering and the terminal event -----

  ghost predicate Numbered(s: State) {
    s.sequence == |s.events| && forall i :: 0 <= i < |s.events| ==> s.events[i].number == i
  }

  ghost predicate Unfinished(s: State) {
    forall i :: 0 <= i < |s.events| ==> !s.events[i].body.Terminal?
  }

  lemma WithItemIsNumbered(s: State, index: int, id: string)
    requires Numbered(s) && Unfinished(s)
    ensures Numbered(WithItem(s, index, id)) && Unfinished(WithItem(s, index, id))
  {
  }

  lemma WithFunctionIsNumbered(s: State, index: int, name: string, arguments: string)
    requires Numbered(s) && Unfinished(s) && index in s.items
    ensures Numbered(WithFunction(s, index, name, arguments)) && Unfinished(WithFunction(s, index, name, arguments))
  {
  }

  lemma WithTextIsNumbered(s: State, text: string)
    requires Numbered(s) && Unfinished(s)
    ensures Numbered(WithText(s, text)) && Unfinished(WithText(s, text))
  {
  }

  lemma StepIsNumbered(s: State, atom: Atom)
    requires Numbered(s) && Unfinished(s)
    ensures Numbered(Step(s, atom)) && Unfinished(Step(s, atom))
  {
    if !s.raised {
      match atom
      case Text(text) =>
        WithTextIsNumbered(s, text);
      case Tool(index, id, name, arguments) =>
        WithItemIsNumbered(s, index, id);
        WithFunctionIsNumbered(WithItem(s, index, id), index, name, arguments);
      case _ =>
    }
  }

  lemma {:induction false} RunIsNumbered(atoms: seq<Atom>)
    ensures Numbered(Run(atoms)) && Unfinished(Run(atoms))
  {
    if atoms != [] {
      RunIsNumbered(atoms[..|atoms| - 1]);
      StepIsNumbered(Run(atoms[..|atoms| - 1]), atoms[|atoms| - 1]);
    }
  }

  /** What is said is appended, numbered on from the counter. */
  lemma {:induction false} SayAllAppends(s: State, bodies: seq<Body>)
    ensures var s' := SayAll(s, bodies);
            && s' == s.(events := s'.events, sequence := s.sequence + |bodies|)
            && s.events <= s'.events && |s'.events| == |s.events| + |bodies|
            && forall k :: |s.events| <= k < |s'.events| ==>
                  s'.events[k] == Event(s.sequence + (k - |s.events|), bodies[k - |s.events|])
  {
    if bodies != [] {
      SayAllAppends(s, bodies[..|bodies| - 1]);
    }
  }

  lemma {:induction false} CallClosingsAreDone(items: seq<Item>, base: int, status: Status)
    ensures forall b <- CallClosings(items, base, status) :: IsDone(b)
  {
    if items != [] {
      CallClosingsAreDone(items[..|items| - 1], base, status);
    }
  }

  predicate IsDone(b: Body) {
    b.TextDone? || b.MessageDone? || b.ArgumentsDone? || b.CallDone?
  }

  lemma ItemClosingsAreDone(s: State)
    ensures forall k :: 0 <= k < |ItemClosings(s)| ==> IsDone(ItemClosings(s)[k])
  {
    CallClosingsAreDone(Ordered(s), Base(s), StatusOf(s));
    assert forall b <- MessageClosing(s) :: IsDone(b);
    assert forall b <- BareClosing(s) :: IsDone(b);
    forall k | 0 <= k < |ItemClosings(s)|
      ensures IsDone(ItemClosings(s)[k])
    {
      assert ItemClosings(s)[k] in ItemClosings(s);
    }
  }

  lemma ClosingEndsOnce(s: State)
    ensures Closing(s) != [] && Closing(s)[|Closing(s)| - 1] == Terminal(EndingOf(s))
    ensures forall k :: 0 <= k < |Closing(s)| ==> (Closing(s)[k].Terminal? <==> k == |Closing(s)| - 1)
  {
    ItemClosingsAreDone(s);
  }

  lemma SayingEndsOnce(s: State, bodies: seq<Body>)
    requires Numbered(s) && Unfinished(s) && bodies != []
    requires forall k :: 0 <= k < |bodies| ==> (bodies[k].Terminal? <==> k == |bodies| - 1)
    ensures var events := SayAll(s, bodies).events;
            && events != []
            && (forall i :: 0 <= i < |events| ==> events[i].number == i)
            && (forall i :: 0 <= i < |events| ==> (events[i].body.Terminal? <==> i == |events| - 1))
            && events[|events| - 1].body == bodies[|bodies| - 1]
  {
    SayAllAppends(s, bodies);
  }

  /** Sequence numbers are 0, 1, 2, ...; exactly one terminal event occurs, and it is the last. */
  lemma StreamIsNumberedAndEndsOnce(atoms: seq<Atom>)
    ensures var events := Translate(atoms);
            && events != []
            && (forall i :: 0 <= i < |events| ==> events[i].number == i)
            && (forall i :: 0 <= i < |events| ==> (events[i].body.Terminal? <==> i == |events| - 1))
            && events[|events| - 1].body == Terminal(EndingOf(Run(atoms)))
  {
    RunIsNumbered(atoms);
    ClosingEndsOnce(Run(atoms));
    SayingEndsOnce(Run(atoms), Closing(Run(atoms)));
  }

  // ----- What the stream tells about each item -----

  datatype Subject = TheMessage | TheCall(index: int) | Nothing
  datatype Stage = Added | DeltaSent | ContentDone | ItemDone

  function SubjectOf(b: Body): Subject {
    match b
    case MessageAdded(_) => TheMessage
    case TextDelta(_, _) => TheMessage
    case TextDone(_, _) => TheMessage
    case MessageDone(_, _) => TheMessage
    case CallAdded(_, item) => TheCall(item.index)
    case ArgumentsDelta(_, index, _) => TheCall(index)
    case ArgumentsDone(_, index, _, _) => TheCall(index)
    case CallDone(_, call, _) => TheCall(call.index)
    case _ => Nothing
  }

  function StageOf(b: Body): Stage {
    if b.MessageAdded? || b.CallAdded? then Added
    else if b.TextDelta? || b.ArgumentsDelta? then DeltaSent
    else if b.TextDone? || b.ArgumentsDone? then ContentDone
    else ItemDone
  }

  /** `Bare` is an item that is only ever reported done. */
  datatype Progress = Absent | Open | ContentClosed | Closed | Bare | Garbled

  function Advance(p: Progress, stage: Stage): Progress {
    match (p, stage)
    case (Absent, Added) => Open
    case (Open, DeltaSent) => Open
    case (Open, ContentDone) => ContentClosed
    case (ContentClosed, ItemDone) => Closed
    case (Absent, ItemDone) => Bare
    case (_, _) => Garbled
  }

  /** The concatenated deltas of one item, and how far its story has come. */
  datatype Tale = Tale(content: string, progress: Progress)

  function Tell(t: Tale, b: Body): Tale {
    Tale(if b.TextDelta? || b.ArgumentsDelta? then t.content + b.delta else t.content, Advance(t.progress, StageOf(b)))
  }

  function Hear(t: Tale, b: Body, subject: Subject): Tale {
    if SubjectOf(b) == subject then Tell(t, b) else t
  }

  function TaleOf(events: seq<Event>, subject: Subject): Tale {
    if events == [] then Tale("", Absent)
    else Hear(TaleOf(events[..|events| - 1], subject), events[|events| - 1].body, subject)
  }

  function HearAll(t: Tale, bodies: seq<Body>, subject: Subject): Tale {
    if bodies == [] then t else Hear(HearAll(t, bodies[..|bodies| - 1], subject), bodies[|bodies| - 1], subject)
  }

  lemma Told(s: State, body: Body, subject: Subject)
    ensures TaleOf(Say(s, body).events, subject) == Hear(TaleOf(s.events, subject), body, subject)
  {
    assert Say(s, body).events[..|s.events|] == s.events;
  }

  lemma {:induction false} SayAllTells(s: State, bodies: seq<Body>, subject: Subject)
    ensures TaleOf(SayAll(s, bodies).events, subject) == HearAll(TaleOf(s.events, subject), bodies, subject)
  {
    if bodies != [] {
      SayAllTells(s, bodies[..|bodies| - 1], subject);
      Told(SayAll(s, bodies[..|bodies| - 1]), bodies[|bodies| - 1], subject);
    }
  }

  lemma {:induction false} HearAllConcat(t: Tale, a: seq<Body>, b: seq<Body>, subject: Subject)
    ensures HearAll(t, a + b, subject) == HearAll(HearAll(t, a, subject), b, subject)
  {
    if b == [] {
      assert a + b == a;
    } else {
      HearAllConcat(t, a, b[..|b| - 1], subject);
      assert (a + b)[..|a + b| - 1] == a + b[..|b| - 1];
    }
  }

  lemma HearOne(t: Tale, a: Body, subject: Subject)
    ensures HearAll(t, [a], subject) == Hear(t, a, subject)
  {
    assert [a][..0] == [];
  }

  lemma HearTwo(t: Tale, a: Body, b: Body, subject: Subject)
    ensures HearAll(t, [a, b], subject) == Hear(Hear(t, a, subject), b, subject)
  {
    assert [a, b][..1] == [a];
    HearOne(t, a, subject);
  }

  ghost predicate MessageTold(s: State) {
    && TaleOf(s.events, TheMessage) == Tale(s.text, if s.started then Open else Absent)
    && (s.started <==> s.text != "")
  }

  ghost predicate CallTold(s: State, i: int) {
    && TaleOf(s.events, TheCall(i)) == (if i in s.items then Tale(s.items[i].arguments, Open) else Tale("", Absent))
    && (i in s.items ==> s.items[i].index == i)
  }

  lemma WithTextTells(s: State, text: string)
    requires MessageTold(s) && text != ""
    ensures MessageTold(WithText(s, text))
  {
    var a := if s.started then s else Say(s.(started := true), MessageAdded(0));
    if !s.started {
      Told(s.(started := true), MessageAdded(0), TheMessage);
    }
    Told(a.(text := a.text + text), TextDelta(0, text), TheMessage);
  }

  lemma WithTextLeavesCalls(s: State, text: string, i: int)
    requires CallTold(s, i)
    ensures CallTold(WithText(s, text), i)
  {
    var a := if s.started then s else Say(s.(started := true), MessageAdded(0));
    Told(s.(started := true), MessageAdded(0), TheCall(i));
    Told(a.(text := a.text + text), TextDelta(0, text), TheCall(i));
  }

  lemma NewItemTells(s: State, item: Item, i: int)
    requires MessageTold(s) && CallTold(s, i) && item.index !in s.items && item.arguments == ""
    ensures MessageTold(NewItem(s, item)) && CallTold(NewItem(s, item), i)
  {
    var a, body := s.(items := s.items[item.index := item]), CallAdded(Base(s) + item.index, item);
    Told(a, body, TheMessage);
    Told(a, body, TheCall(i));
  }

  lemma ReidentifiedTells(s: State, index: int, id: string, i: int)
    requires MessageTold(s) && CallTold(s, i) && index in s.items
    ensures MessageTold(Reidentified(s, index, id)) && CallTold(Reidentified(s, index, id), i)
  {
  }

  lemma WithItemTells(s: State, index: int, id: string, i: int)
    requires MessageTold(s) && CallTold(s, i)
    ensures MessageTold(WithItem(s, index, id)) && CallTold(WithItem(s, index, id), i)
  {
    var s' := WithItem(s, index, id);
    if index !in s.items {
      var item := Item(index, if id == "" then Generated else Given(id), "", "");
      assert s' == NewItem(s, item);
      NewItemTells(s, item, i);
    } else if id != "" {
      assert s' == Reidentified(s, index, id);
      ReidentifiedTells(s, index, id, i);
    } else {
      assert s' == s;
    }
  }

  lemma GrownTells(s: State, index: int, name: string, arguments: string, i: int)
    requires MessageTold(s) && CallTold(s, i) && index in s.items
    ensures MessageTold(Grown(s, index, name, arguments))
    ensures i != index || arguments == "" ==> CallTold(Grown(s, index, name, arguments), i)
  {
    if arguments == "" {
      assert s.items[index].arguments + arguments == s.items[index].arguments;
    }
  }

  lemma WithFunctionTells(s: State, index: int, name: string, arguments: string, i: int)
    requires MessageTold(s) && CallTold(s, i) && index in s.items
    ensures MessageTold(WithFunction(s, index, name, arguments)) && CallTold(WithFunction(s, index, name, arguments), i)
  {
    var a, body := Grown(s, index, name, arguments), ArgumentsDelta(Base(s) + index, index, arguments);
    GrownTells(s, index, name, arguments, i);
    if arguments != "" {
      Told(a, body, TheMessage);
      Told(a, body, TheCall(i));
    }
  }

  lemma ToolTells(s: State, index: int, id: string, name: string, arguments: string, i: int)
    requires MessageTold(s) && CallTold(s, i)
    ensures var s' := WithFunction(WithItem(s, index, id), index, name, arguments); MessageTold(s') && CallTold(s', i)
  {
    WithItemTells(s, index, id, i);
    WithFunctionTells(WithItem(s, index, id), index, name, arguments, i);
  }

  lemma StepTells(s: State, atom: Atom, i: int)
    requires MessageTold(s) && CallTold(s, i)
    ensures MessageTold(Step(s, atom)) && CallTold(Step(s, atom), i)
  {
    if !s.raised {
      if atom.Text? && atom.text != "" {
        WithTextTells(s, atom.text);
        WithTextLeavesCalls(s, atom.text, i);
      } else if atom.Tool? {
        ToolTells(s, atom.index, atom.id, atom.name, atom.arguments, i);
      }
    }
  }

  lemma {:induction false} RunTells(atoms: seq<Atom>, i: int)
    ensures MessageTold(Run(atoms)) && CallTold(Run(atoms), i)
  {
    if atoms == [] {
      var s := State([], 0, None, false, "", map[], None, false);
      Told(s, Created, TheMessage);
      Told(s, Created, TheCall(i));
      Told(Say(s, Created), InProgress, TheMessage);
      Told(Say(s, Created), InProgress, TheCall(i));
    } else {
      RunTells(atoms[..|atoms| - 1], i);
      StepTells(Run(atoms[..|atoms| - 1]), atoms[|atoms| - 1], i);
    }
  }

  function AsClosed(t: Tale): Tale {
    t.(progress := Closed)
  }

  predicate IsAbout(subject: Subject, items: seq<Item>) {
    subject.TheCall? && exists k :: 0 <= k < |items| && items[k].index == subject.index
  }

  /** Strictly increasing indices. */
  ghost predicate InOrder(items: seq<Item>) {
    forall j, k :: 0 <= j < k < |items| ==> items[j].index < items[k].index
  }

  lemma LastIsNew(items: seq<Item>, subject: Subject)
    requires InOrder(items) && items != []
    ensures var init, last := items[..|items| - 1], items[|items| - 1];
            && InOrder(init)
            && (IsAbout(subject, items) <==> IsAbout(subject, init) || subject == TheCall(last.index))
            && !(IsAbout(subject, init) && subject == TheCall(last.index))
  {
    var init := items[..|items| - 1];
    assert forall k :: 0 <= k < |init| ==> init[k] == items[k];
  }

  lemma CallClosingTells(item: Item, position: int, status: Status, subject: Subject, tale: Tale)
    requires subject == TheCall(item.index) ==> tale.progress == Open
    ensures HearAll(tale, CallClosing(item, position, status), subject)
            == if subject == TheCall(item.index) then AsClosed(tale) else tale
  {
    HearTwo(tale, ArgumentsDone(position, item.index, item.name, item.arguments), CallDone(position, item, status),
        subject);
  }

  lemma {:induction false} CallClosingsTell(items: seq<Item>, base: int, status: Status, subject: Subject, tale: Tale)
    requires InOrder(items) && (IsAbout(subject, items) ==> tale.progress == Open)
    ensures HearAll(tale, CallClosings(items, base, status), subject)
            == if IsAbout(subject, items) then AsClosed(tale) else tale
  {
    if items != [] {
      var init, last, position := items[..|items| - 1], items[|items| - 1], base + |items| - 1;
      LastIsNew(items, subject);
      CallClosingsTell(init, base, status, subject, tale);
      HearAllConcat(tale, CallClosings(init, base, status), CallClosing(last, position, status), subject);
      CallClosingTells(last, position, status, subject, HearAll(tale, CallClosings(init, base, status), subject));
    }
  }

  lemma OrderedIsInOrder(s: State)
    requires forall i <- s.items :: s.items[i].index == i
    ensures InOrder(Ordered(s))
    ensures forall k :: 0 <= k < |Ordered(s)| ==>
              Ordered(s)[k].index in s.items && s.items[Ordered(s)[k].index] == Ordered(s)[k]
    ensures forall i <- s.items :: exists k :: 0 <= k < |Ordered(s)| && Ordered(s)[k].index == i
  {
    var keys := SortedKeys(s.items.Keys);
    SortedKeysAreKeys(s.items.Keys);
    forall i | i in s.items
      ensures exists k :: 0 <= k < |Ordered(s)| && Ordered(s)[k].index == i
    {
      assert i in keys;
      var k :| 0 <= k < |keys| && keys[k] == i;
      assert Ordered(s)[k].index == i;
    }
  }

  function ClosedTale(s: State, subject: Subject): Tale {
    match subject
    case TheMessage => Tale(s.text, if s.started then Closed else if s.items == map[] then Bare else Absent)
    case TheCall(i) => if i in s.items then Tale(s.items[i].arguments, Closed) else Tale("", Absent)
    case Nothing => Tale("", Absent)
  }

  lemma MessageClosingTells(s: State, subject: Subject, tale: Tale)
    requires subject == TheMessage ==> tale == Tale(s.text, if s.started then Open else Absent)
    ensures HearAll(tale, MessageClosing(s), subject)
            == if subject == TheMessage && s.started then AsClosed(tale) else tale
  {
    if s.started {
      HearTwo(tale, TextDone(0, s.text), MessageDone(0, Message(s.text, StatusOf(s))), subject);
    }
  }

  lemma ItemClosingsTell(s: State, subject: Subject, tale: Tale)
    requires subject != Nothing && tale == OpenTale(s, subject) && forall i <- s.items :: s.items[i].index == i
    ensures HearAll(tale, ItemClosings(s), subject) == ClosedTale(s, subject)
  {
    var calls, bare := CallClosings(Ordered(s), Base(s), StatusOf(s)), BareClosing(s);
    OrderedIsInOrder(s);
    assert IsAbout(subject, Ordered(s)) <==> subject.TheCall? && subject.index in s.items;
    HearAllConcat(tale, MessageClosing(s) + calls, bare, subject);
    HearAllConcat(tale, MessageClosing(s), calls, subject);
    MessageClosingTells(s, subject, tale);
    var second := HearAll(tale, MessageClosing(s), subject);
    CallClosingsTell(Ordered(s), Base(s), StatusOf(s), subject, second);
    HearOne(HearAll(second, calls, subject), MessageDone(0, Message("", StatusOf(s))), subject);
  }

  function OpenTale(s: State, subject: Subject): Tale {
    match subject
    case TheMessage => Tale(s.text, if s.started then Open else Absent)
    case TheCall(i) => if i in s.items then Tale(s.items[i].arguments, Open) else Tale("", Absent)
    case Nothing => Tale("", Absent)
  }

  /** What a whole stream tells about an item. */
  function WholeTale(s: State, subject: Subject): Tale {
    if EndingOf(s).EndDone? then ClosedTale(s, subject) else OpenTale(s, subject)
  }

  /**
   Every item is added once, then gets its deltas, then its done events, and the deltas
   add up to the item's content. In a failed stream no item is reported done; an empty
   reply reports a message done that it never added.
   */
  lemma EveryItemTellsItsTale(atoms: seq<Atom>, subject: Subject)
    requires subject != Nothing
    ensures TaleOf(Translate(atoms), subject) == WholeTale(Run(atoms), subject)
  {
    RunTellsAll(atoms);
    ClosingTells(Run(atoms), subject);
  }

  lemma RunTellsAll(atoms: seq<Atom>)
    ensures MessageTold(Run(atoms)) && forall k :: CallTold(Run(atoms), k)
  {
    forall k
      ensures CallTold(Run(atoms), k)
    {
      RunTells(atoms, k);
    }
    RunTells(atoms, 0);
  }

  lemma EndingIsAboutNothing(tale: Tale, items: seq<Body>, ending: Ending, subject: Subject)
    requires subject != Nothing
    ensures HearAll(tale, items + [Terminal(ending)], subject) == HearAll(tale, items, subject)
  {
    HearAllConcat(tale, items, [Terminal(ending)], subject);
    HearOne(HearAll(tale, items, subject), Terminal(ending), subject);
  }

  lemma ClosingHeard(s: State, subject: Subject, tale: Tale)
    requires subject != Nothing && tale == OpenTale(s, subject) && forall i <- s.items :: s.items[i].index == i
    ensures HearAll(tale, Closing(s), subject) == WholeTale(s, subject)
  {
    var ending := EndingOf(s);
    if ending.EndFailed? {
      EndingIsAboutNothing(tale, [], ending, subject);
    } else {
      EndingIsAboutNothing(tale, ItemClosings(s), ending, subject);
      ItemClosingsTell(s, subject, tale);
    }
  }

  lemma ClosingTells(s: State, subject: Subject)
    requires subject != Nothing && MessageTold(s) && forall k :: CallTold(s, k)
    ensures TaleOf(Close(s).events, subject) == WholeTale(s, subject)
  {
    var tale := TaleOf(s.events, subject);
    assert tale == OpenTale(s, subject) by {
      assert subject.TheCall? ==> CallTold(s, subject.index);
    }
    assert forall i <- s.items :: s.items[i].index == i by {
      assert forall i <- s.items :: CallTold(s, i);
    }
    SayAllTells(s, Closing(s), subject);
    ClosingHeard(s, subject, tale);
  }

  // ----- Done events carry the whole content -----

  /** A done event repeats the final text, or the final item. */
  predicate Truthful(b: Body, text: string, items: map<int, Item>) {
    match b
    case TextDone(_, said) => said == text
    case MessageDone(_, message) => message.Message? && message.text == text
    case ArgumentsDone(_, i, name, arguments) => i in items && items[i].name == name && items[i].arguments == arguments
    case CallDone(_, call, _) => call.index in items && items[call.index] == call
    case _ => true
  }

  ghost predicate NothingDone(s: State) {
    forall i :: 0 <= i < |s.events| ==> !IsDone(s.events[i].body)
  }

  lemma StepReportsNothingDone(s: State, atom: Atom)
    requires NothingDone(s)
    ensures NothingDone(Step(s, atom))
  {
    if !s.raised {
      match atom
      case Text(text) =>
        assert NothingDone(WithText(s, text));
      case Tool(index, id, name, arguments) =>
        assert NothingDone(WithItem(s, index, id));
        assert NothingDone(WithFunction(WithItem(s, index, id), index, name, arguments));
      case _ =>
    }
  }

  lemma {:induction false} RunReportsNothingDone(atoms: seq<Atom>)
    ensures NothingDone(Run(atoms))
  {
    if atoms != [] {
      RunReportsNothingDone(atoms[..|atoms| - 1]);
      StepReportsNothingDone(Run(atoms[..|atoms| - 1]), atoms[|atoms| - 1]);
    }
  }

  lemma {:induction false} CallClosingsAreTruthful(all: seq<Item>, base: int, status: Status, text: string,
      items: map<int, Item>)
    requires forall k :: 0 <= k < |all| ==> all[k].index in items && items[all[k].index] == all[k]
    ensures forall b <- CallClosings(all, base, status) :: Truthful(b, text, items)
  {
    if all != [] {
      CallClosingsAreTruthful(all[..|all| - 1], base, status, text, items);
    }
  }

  lemma ClosingIsTruthful(s: State)
    requires MessageTold(s) && forall i <- s.items :: s.items[i].index == i
    ensures forall k :: 0 <= k < |Closing(s)| ==> Truthful(Closing(s)[k], s.text, s.items)
  {
    OrderedIsInOrder(s);
    CallClosingsAreTruthful(Ordered(s), Base(s), StatusOf(s), s.text, s.items);
    assert forall b <- MessageClosing(s) :: Truthful(b, s.text, s.items);
    assert forall b <- BareClosing(s) :: Truthful(b, s.text, s.items);
    forall k | 0 <= k < |Closing(s)|
      ensures Truthful(Closing(s)[k], s.text, s.items)
    {
      assert Closing(s)[k] in Closing(s);
    }
  }

  /** A done event says what the deltas said. */
  ghost predicate Repeats(b: Body, events: seq<Event>) {
    match b
    case TextDone(_, text) => text == TaleOf(events, TheMessage).content
    case MessageDone(_, message) => message.Message? && message.text == TaleOf(events, TheMessage).content
    case ArgumentsDone(_, i, _, arguments) => arguments == TaleOf(events, TheCall(i)).content
    case CallDone(_, call, _) => call.arguments == TaleOf(events, TheCall(call.index)).content
    case _ => true
  }

  function ContentOf(text: string, items: map<int, Item>, subject: Subject): string {
    match subject
    case TheMessage => text
    case TheCall(i) => if i in items then items[i].arguments else ""
    case Nothing => ""
  }

  lemma TruthfulRepeats(b: Body, text: string, items: map<int, Item>, events: seq<Event>)
    requires Truthful(b, text, items)
    requires IsDone(b) ==> TaleOf(events, SubjectOf(b)).content == ContentOf(text, items, SubjectOf(b))
    ensures Repeats(b, events)
  {
  }

  lemma TaleContent(atoms: seq<Atom>, subject: Subject)
    requires subject != Nothing
    ensures TaleOf(Translate(atoms), subject).content == ContentOf(Run(atoms).text, Run(atoms).items, subject)
  {
    EveryItemTellsItsTale(atoms, subject);
  }

  lemma StreamIsTruthful(atoms: seq<Atom>)
    ensures forall k :: 0 <= k < |Translate(atoms)| ==>
            Truthful(Translate(atoms)[k].body, Run(atoms).text, Run(atoms).items)
  {
    var s, events := Run(atoms), Translate(atoms);
    RunTellsAll(atoms);
    RunReportsNothingDone(atoms);
    assert forall i <- s.items :: CallTold(s, i);
    ClosingIsTruthful(s);
    SayAllAppends(s, Closing(s));
    forall k | 0 <= k < |events|
      ensures Truthful(events[k].body, s.text, s.items)
    {
      if k < |s.events| {
        assert !IsDone(s.events[k].body);
      } else {
        assert events[k].body == Closing(s)[k - |s.events|];
      }
    }
  }

  /** Every done event of a stream repeats the deltas before it. */
  lemma DoneEventsRepeatTheDeltas(atoms: seq<Atom>)
    ensures forall k :: 0 <= k < |Translate(atoms)| ==> Repeats(Translate(atoms)[k].body, Translate(atoms))
  {
    StreamIsTruthful(atoms);
    forall k | 0 <= k < |Translate(atoms)|
      ensures Repeats(Translate(atoms)[k].body, Translate(atoms))
    {
      var b := Translate(atoms)[k].body;
      if IsDone(b) {
        TaleContent(atoms, SubjectOf(b));
      }
      TruthfulRepeats(b, Run(atoms).text, Run(atoms).items, Translate(atoms));
    }
  }
}
