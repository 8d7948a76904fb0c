/**
 The history encoder: a Responses input history becomes Chat messages, with each
 run of function calls gathered into one assistant message.
 */
module History {
  import opened Sequences

  // ----- Raw input -----

  /** A field that is missing or falsy, a non-empty string, or some other value. */
  datatype Field = Absent | Text(value: string) | Other

  datatype Part = TextPart(text: string) | BadPart
  datatype Content = Plain(text: string) | Parts(parts: seq<Part>) | BadContent

  /** `output` is the text sent on: the string itself, or the value written as JSON. */
  datatype RawItem =
    | RawCall(callId: Field, id: Field, name: Field, arguments: Option<string>)
    | RawOutput(callId: Field, output: string)
    | RawMessage(role: string, phase: Field, content: Content)
    | RawUnsupported

  datatype Input = Prompt(text: string) | Values(values: seq<RawItem>)
  datatype Request = Request(previousResponseId: bool, instructions: string, input: Input)

  datatype Error = PreviousResponse | Invalid(index: nat)
  datatype Result<+T> = Ok(value: T) | Err(error: Error)

  // ----- Items and messages -----

  datatype ToolCall = ToolCall(id: string, name: string, arguments: string)
  datatype Role = User | Assistant | System

  /** An accepted history item: developer messages count as system, arguments are in the form sent on. */
  datatype Item = Call(call: ToolCall) | Output(callId: string, text: string) | Message(role: Role, text: string)

  datatype Chat =
    | SystemChat(text: string)
    | UserChat(text: string)
    | AssistantChat(content: Option<string>, calls: seq<ToolCall>)
    | ToolChat(callId: string, text: string)

  // ----- Reading one item -----

  function Joined(parts: seq<Part>): Option<string> {
    if parts == [] then Some("")
    else
      var last := parts[|parts| - 1];
      var before := Joined(parts[..|parts| - 1]);
      if last.BadPart? || before.None? then None
      else if |parts| == 1 then Some(last.text)
      else Some(before.value + "\n" + last.text)
  }

  function TextOf(c: Content): Option<string> {
    match c
    case Plain(text) => Some(text)
    case Parts(parts) => Joined(parts)
    case BadContent => None
  }

  function RoleOf(role: string): Option<Role> {
    if role == "user" then Some(User)
    else if role == "assistant" then Some(Assistant)
    else if role == "system" || role == "developer" then Some(System)
    else None
  }

  /** `wrap` is the sanitised form of a call's argument string. */
  function Parsed(wrap: string -> string, raw: RawItem): Option<Item> {
    match raw
    case RawCall(callId, id, name, arguments) =>
      var chosen := if callId.Absent? then id else callId;
      if arguments.None? || !name.Text? || name.value == "" || !chosen.Text? || chosen.value == "" then None
      else Some(Call(ToolCall(chosen.value, name.value, wrap(arguments.value))))
    case RawOutput(callId, output) =>
      if !callId.Text? || callId.value == "" then None else Some(Output(callId.value, output))
    case RawMessage(role, phase, content) =>
      if RoleOf(role).None? || !phase.Absent? || TextOf(content).None? then None
      else Some(Message(RoleOf(role).value, TextOf(content).value))
    case RawUnsupported => None
  }

  /** All items, or the position of the first that is refused. */
  function ParsedAll(wrap: string -> string, values: seq<RawItem>): Result<seq<Item>> {
    if values == [] then Ok([])
    else
      var before := ParsedAll(wrap, values[..|values| - 1]);
      if before.Err? then before
      else
        var last := Parsed(wrap, values[|values| - 1]);
        if last.None? then Err(Invalid(|values| - 1)) else Ok(before.value + [last.value])
  }

  // ----- Encoding -----

  datatype Draft = Draft(messages: seq<Chat>, pending: seq<ToolCall>)

  predicate AwaitsCalls(m: Chat) {
    m.AssistantChat? && m.calls == []
  }

  function Flushed(d: Draft): seq<Chat> {
    var n := |d.messages|;
    if d.pending == [] then d.messages
    else if n > 0 && AwaitsCalls(d.messages[n - 1]) then d.messages[n - 1 := d.messages[n - 1].(calls := d.pending)]
    else d.messages + [AssistantChat(None, d.pending)]
  }

  function ChatOf(item: Item): Chat
    requires !item.Call?
  {
    match item
    case Output(callId, text) => ToolChat(callId, text)
    case Message(role, text) =>
      if role.System? then SystemChat(text) else if role.User? then UserChat(text) else AssistantChat(Some(text), [])
  }

  function Extended(d: Draft, item: Item): Draft {
    if item.Call? then d.(pending := d.pending + [item.call]) else Draft(Flushed(d) + [ChatOf(item)], [])
  }

  function Drafted(items: seq<Item>): Draft {
    Fold(Extended, Draft([], []), items)
  }

  function Encode(items: seq<Item>): seq<Chat> {
    Flushed(Drafted(items))
  }

  function Preamble(request: Request): seq<Item> {
    if request.instructions == "" then [] else [Message(System, request.instructions)]
  }

  function ValuesOf(request: Request): seq<RawItem> {
    match request.input
    case Prompt(text) => [RawMessage("user", Absent, Plain(text))]
    case Values(values) => values
  }

  function Translated(wrap: string -> string, request: Request): Result<seq<Chat>> {
    if request.previousResponseId then Err(PreviousResponse)
    else
      var items := ParsedAll(wrap, ValuesOf(request));
      if items.Err? then Err(items.error) else Ok(Encode(Preamble(request) + items.value))
  }

  // ----- The loop -----

  lemma {:induction false} RefusalIsFirst(wrap: string -> string, values: seq<RawItem>, n: nat)
    requires n < |values| && ParsedAll(wrap, values[..n]).Ok? && Parsed(wrap, values[n]).None?
    ensures ParsedAll(wrap, values) == Err(Invalid(n))
  {
    var init := values[..|values| - 1];
    if n < |init| {
      assert init[..n] == values[..n];
      RefusalIsFirst(wrap, init, n);
    } else {
      assert values[..n] == init;
    }
  }

  lemma DraftedMore(items: seq<Item>, item: Item)
    ensures Drafted(items + [item]) == Extended(Drafted(items), item)
  {
    FoldConcat(Extended, Draft([], []), items, [item]);
    FoldOne(Extended, Drafted(items), item);
  }

  method ResponsesInputToChatMessages(wrap: string -> string, request: Request) returns (r: Result<seq<Chat>>)
    ensures r == Translated(wrap, request)
  {
    if request.previousResponseId {
      return Err(PreviousResponse);
    }
    var messages: seq<Chat>, pending: seq<ToolCall> := [], [];
    if request.instructions != "" {
      messages := messages + [SystemChat(request.instructions)];
    }
    DraftedPreamble(request);
    var values := ValuesOf(request);
    ghost var items := Preamble(request);
    for i := 0 to |values|
      invariant ParsedAll(wrap, values[..i]).Ok? && items == Preamble(request) + ParsedAll(wrap, values[..i]).value
      invariant Draft(messages, pending) == Drafted(items)
    {
      var item := Parsed(wrap, values[i]);
      if item.None? {
        RefusalIsFirst(wrap, values, i);
        return Err(Invalid(i));
      }
      OneMoreParsed(wrap, values, i, Preamble(request));
      DraftedMore(items, item.value);
      items := items + [item.value];
      if item.value.Call? {
        pending := pending + [item.value.call];
      } else {
        messages := FlushAssistantCalls(messages, pending);
        pending := [];
        messages := messages + [ChatOf(item.value)];
      }
    }
    assert values[..|values|] == values;
    messages := FlushAssistantCalls(messages, pending);
    r := Ok(messages);
  }

  lemma DraftedPreamble(request: Request)
    ensures Drafted(Preamble(request))
            == Draft(if request.instructions == "" then [] else [SystemChat(request.instructions)], [])
  {
    var system := Message(System, request.instructions);
    DraftedMore([], system);
    assert [] + [system] == [system];
    assert [] + [SystemChat(request.instructions)] == [SystemChat(request.instructions)];
  }

  lemma OneMoreParsed(wrap: string -> string, values: seq<RawItem>, i: nat, before: seq<Item>)
    requires i < |values| && ParsedAll(wrap, values[..i]).Ok? && Parsed(wrap, values[i]).Some?
    ensures ParsedAll(wrap, values[..i + 1]).Ok?
    ensures before + ParsedAll(wrap, values[..i + 1]).value
            == before + ParsedAll(wrap, values[..i]).value + [Parsed(wrap, values[i]).value]
  {
    assert values[..i + 1][..i] == values[..i];
  }

  method FlushAssistantCalls(messages: seq<Chat>, pending: seq<ToolCall>) returns (r: seq<Chat>)
    ensures r == Flushed(Draft(messages, pending))
  {
    r := messages;
    if pending == [] {
      return;
    }
    var n := |messages|;
    if n > 0 && AwaitsCalls(messages[n - 1]) {
      r := messages[n - 1 := messages[n - 1].(calls := pending)];
    } else {
      r := messages + [AssistantChat(None, pending)];
    }
  }

  /** The translation is refused exactly for a previous response id or an item that cannot be read. */
  lemma {:induction false} RefusedExactlyWhen(wrap: string -> string, values: seq<RawItem>)
    ensures ParsedAll(wrap, values).Ok? <==> forall i :: 0 <= i < |values| ==> Parsed(wrap, values[i]).Some?
    ensures ParsedAll(wrap, values).Ok? ==>
              && |ParsedAll(wrap, values).value| == |values|
              && forall i :: 0 <= i < |values| ==> Parsed(wrap, values[i]) == Some(ParsedAll(wrap, values).value[i])
    ensures ParsedAll(wrap, values).Err? ==>
              var e := ParsedAll(wrap, values).error;
              && e.Invalid? && e.index < |values| && Parsed(wrap, values[e.index]).None?
              && forall i :: 0 <= i < e.index ==> Parsed(wrap, values[i]).Some?
  {
    if values != [] {
      var init := values[..|values| - 1];
      RefusedExactlyWhen(wrap, init);
      assert forall i :: 0 <= i < |init| ==> init[i] == values[i];
    }
  }

  // ----- Decoding -----

  function CallItems(calls: seq<ToolCall>): (items: seq<Item>)
    ensures |items| == |calls| && forall i :: 0 <= i < |calls| ==> items[i] == Call(calls[i])
  {
    seq(|calls|, i requires 0 <= i < |calls| => Call(calls[i]))
  }

  function ItemsOf(m: Chat): seq<Item> {
    match m
    case SystemChat(text) => [Message(System, text)]
    case UserChat(text) => [Message(User, text)]
    case AssistantChat(content, calls) =>
      (if content.Some? then [Message(Assistant, content.value)] else []) + CallItems(calls)
    case ToolChat(callId, text) => [Output(callId, text)]
  }

  function Decode(messages: seq<Chat>): seq<Item> {
    if messages == [] then []
    else Decode(messages[..|messages| - 1]) + ItemsOf(messages[|messages| - 1])
  }

  lemma DecodeMore(messages: seq<Chat>, m: Chat)
    ensures Decode(messages + [m]) == Decode(messages) + ItemsOf(m)
  {
    assert (messages + [m])[..|messages|] == messages;
  }

  lemma AttachedCallsFollow(m: Chat, calls: seq<ToolCall>)
    requires AwaitsCalls(m)
    ensures ItemsOf(m.(calls := calls)) == ItemsOf(m) + CallItems(calls)
  {
    assert CallItems([]) == [];
    assert ItemsOf(m) + [] == ItemsOf(m);
  }

  lemma Associate<T>(a: seq<T>, b: seq<T>, c: seq<T>)
    ensures a + (b + c) == a + b + c
  {
  }

  lemma AttachingKeepsItems(init: seq<Chat>, m: Chat, m': Chat, calls: seq<ToolCall>)
    requires ItemsOf(m') == ItemsOf(m) + CallItems(calls)
    ensures Decode(init + [m']) == Decode(init + [m]) + CallItems(calls)
  {
    DecodeMore(init, m);
    DecodeMore(init, m');
    Associate(Decode(init), ItemsOf(m), CallItems(calls));
  }

  lemma FlushingKeepsItems(d: Draft)
    ensures Decode(Flushed(d)) == Decode(d.messages) + CallItems(d.pending)
  {
    var n := |d.messages|;
    if d.pending == [] {
      assert Decode(d.messages) + [] == Decode(d.messages);
    } else if n > 0 && AwaitsCalls(d.messages[n - 1]) {
      var init, last := d.messages[..n - 1], d.messages[n - 1];
      assert Flushed(d) == init + [last.(calls := d.pending)] && d.messages == init + [last];
      AttachedCallsFollow(last, d.pending);
      AttachingKeepsItems(init, last, last.(calls := d.pending), d.pending);
    } else {
      DecodeMore(d.messages, AssistantChat(None, d.pending));
      assert [] + CallItems(d.pending) == CallItems(d.pending);
    }
  }

  lemma ChatOfIsRead(item: Item)
    requires !item.Call?
    ensures ItemsOf(ChatOf(item)) == [item]
  {
    assert [item] + CallItems([]) == [item];
  }

  ghost predicate Holds(d: Draft, items: seq<Item>) {
    Decode(d.messages) + CallItems(d.pending) == items
  }

  lemma CallIsPending(d: Draft, items: seq<Item>, call: ToolCall)
    requires Holds(d, items)
    ensures Holds(d.(pending := d.pending + [call]), items + [Call(call)])
  {
    assert CallItems(d.pending + [call]) == CallItems(d.pending) + [Call(call)];
    Associate(Decode(d.messages), CallItems(d.pending), [Call(call)]);
  }

  lemma MessageIsAppended(messages: seq<Chat>, items: seq<Item>, item: Item)
    requires Decode(messages) == items && !item.Call?
    ensures Holds(Draft(messages + [ChatOf(item)], []), items + [item])
  {
    DecodeMore(messages, ChatOf(item));
    ChatOfIsRead(item);
    assert items + [item] + CallItems([]) == items + [item];
  }

  lemma ExtendingAddsItem(d: Draft, items: seq<Item>, item: Item)
    requires Holds(d, items)
    ensures Holds(Extended(d, item), items + [item])
  {
    if item.Call? {
      CallIsPending(d, items, item.call);
    } else {
      FlushingKeepsItems(d);
      MessageIsAppended(Flushed(d), items, item);
    }
  }

  lemma {:induction false} DraftHoldsItems(items: seq<Item>)
    ensures Holds(Drafted(items), items)
  {
    if items != [] {
      var init, last := items[..|items| - 1], items[|items| - 1];
      assert items == init + [last];
      DraftHoldsItems(init);
      DraftedMore(init, last);
      ExtendingAddsItem(Drafted(init), init, last);
    }
  }

  /** Nothing is dropped, added or reordered: the messages read back as the items. */
  lemma EncodingReadsBack(items: seq<Item>)
    ensures Decode(Encode(items)) == items
  {
    DraftHoldsItems(items);
    FlushingKeepsItems(Drafted(items));
  }

  // ----- Grouping -----

  /** Assistant messages say or call something, and calls alone never follow an assistant message. */
  ghost predicate WellGrouped(messages: seq<Chat>) {
    && (forall k :: 0 <= k < |messages| && messages[k].AssistantChat? ==>
          messages[k].content.Some? || messages[k].calls != [])
    && (forall k :: 0 <= k < |messages| - 1 && messages[k].AssistantChat? && messages[k + 1].AssistantChat? ==>
          messages[k + 1].content.Some?)
  }

  ghost predicate Ready(d: Draft) {
    && WellGrouped(d.messages)
    && (d.messages != [] ==> d.messages[|d.messages| - 1].AssistantChat? ==> d.messages[|d.messages| - 1].calls == [])
  }

  lemma FlushedIsWellGrouped(d: Draft)
    requires Ready(d)
    ensures WellGrouped(Flushed(d))
  {
  }

  lemma ExtendedIsReady(d: Draft, item: Item)
    requires Ready(d)
    ensures Ready(Extended(d, item))
  {
    FlushedIsWellGrouped(d);
  }

  lemma {:induction false} DraftedIsReady(items: seq<Item>)
    ensures Ready(Drafted(items))
  {
    if items != [] {
      DraftedIsReady(items[..|items| - 1]);
      ExtendedIsReady(Drafted(items[..|items| - 1]), items[|items| - 1]);
    }
  }

  lemma EncodingIsWellGrouped(items: seq<Item>)
    ensures WellGrouped(Encode(items))
  {
    DraftedIsReady(items);
    FlushedIsWellGrouped(Drafted(items));
  }

  lemma {:induction false} DraftedCalls(items: seq<Item>, calls: seq<ToolCall>)
    ensures Drafted(items + CallItems(calls)) == Drafted(items).(pending := Drafted(items).pending + calls)
  {
    if calls == [] {
      assert items + CallItems(calls) == items;
      assert Drafted(items).pending + calls == Drafted(items).pending;
    } else {
      var init, last := calls[..|calls| - 1], calls[|calls| - 1];
      DraftedCalls(items, init);
      assert items + CallItems(calls) == (items + CallItems(init)) + [Call(last)];
      DraftedMore(items + CallItems(init), Call(last));
      assert Drafted(items).pending + init + [last] == Drafted(items).pending + calls;
    }
  }

  /** The draft of a message list's own items: the list, with a last assistant message's calls still pending. */
  function Reopened(messages: seq<Chat>): Draft {
    if messages == [] then Draft([], [])
    else
      var init, last := messages[..|messages| - 1], messages[|messages| - 1];
      if !last.AssistantChat? then Draft(messages, [])
      else if last.content.Some? then Draft(init + [last.(calls := [])], last.calls)
      else Draft(init, last.calls)
  }

  lemma ReopenedFlushes(messages: seq<Chat>)
    requires WellGrouped(messages)
    ensures Flushed(Reopened(messages)) == messages
  {
    if messages != [] {
      var init, last := messages[..|messages| - 1], messages[|messages| - 1];
      assert messages == init + [last];
      if last.AssistantChat? && last.content.Some? && last.calls != [] {
        assert (init + [last.(calls := [])])[|init| := last] == messages;
      }
    }
  }

  lemma SpokenItems(items: seq<Item>, text: string, calls: seq<ToolCall>)
    ensures items + ItemsOf(AssistantChat(Some(text), calls)) == items + [Message(Assistant, text)] + CallItems(calls)
  {
  }

  lemma BareItems(items: seq<Item>, calls: seq<ToolCall>)
    ensures items + ItemsOf(AssistantChat(None, calls)) == items + CallItems(calls)
  {
    assert [] + CallItems(calls) == CallItems(calls);
  }

  lemma NothingBefore<T>(s: seq<T>)
    ensures [] + s == s
  {
  }

  lemma DraftOfMessage(items: seq<Item>, item: Item)
    requires !item.Call?
    ensures Drafted(items + [item]) == Draft(Encode(items) + [ChatOf(item)], [])
  {
    DraftedMore(items, item);
  }

  lemma DraftOfSpoken(items: seq<Item>, text: string, calls: seq<ToolCall>)
    ensures Drafted(items + ItemsOf(AssistantChat(Some(text), calls)))
            == Draft(Encode(items) + [AssistantChat(Some(text), [])], calls)
  {
    var spoken := items + [Message(Assistant, text)];
    SpokenItems(items, text, calls);
    DraftOfMessage(items, Message(Assistant, text));
    assert Drafted(spoken).messages == Encode(items) + [AssistantChat(Some(text), [])] && Drafted(spoken).pending == [];
    DraftedCalls(spoken, calls);
    NothingBefore(calls);
  }

  lemma DraftOfBareCalls(items: seq<Item>, calls: seq<ToolCall>)
    requires Drafted(items).pending == []
    ensures Drafted(items + ItemsOf(AssistantChat(None, calls))) == Draft(Drafted(items).messages, calls)
  {
    BareItems(items, calls);
    DraftedCalls(items, calls);
    NothingBefore(calls);
  }

  lemma DraftOfOther(items: seq<Item>, m: Chat)
    requires !m.AssistantChat?
    ensures Drafted(items + ItemsOf(m)) == Draft(Encode(items) + [m], [])
  {
    DraftedMore(items, ItemsOf(m)[0]);
    assert ItemsOf(m) == [ItemsOf(m)[0]];
  }

  lemma DraftOfMore(messages: seq<Chat>, m: Chat)
    requires WellGrouped(messages + [m])
    requires Drafted(Decode(messages)) == Reopened(messages) && Encode(Decode(messages)) == messages
    ensures Drafted(Decode(messages) + ItemsOf(m)) == Reopened(messages + [m])
  {
    var all := messages + [m];
    assert all[..|messages|] == messages;
    if !m.AssistantChat? {
      DraftOfOther(Decode(messages), m);
    } else if m.content.Some? {
      DraftOfSpoken(Decode(messages), m.content.value, m.calls);
    } else {
      assert messages != [] ==> !messages[|messages| - 1].AssistantChat? by {
        assert messages != [] ==> all[|messages| - 1] == messages[|messages| - 1] && all[|messages|] == m;
      }
      DraftOfBareCalls(Decode(messages), m.calls);
    }
  }

  lemma {:induction false} DraftOfDecoded(messages: seq<Chat>)
    requires WellGrouped(messages)
    ensures Drafted(Decode(messages)) == Reopened(messages)
  {
    if messages != [] {
      var init, last := messages[..|messages| - 1], messages[|messages| - 1];
      assert messages == init + [last];
      assert WellGrouped(init);
      DraftOfDecoded(init);
      ReopenedFlushes(init);
      DraftOfMore(init, last);
    }
  }

  /** Encoding inverts decoding on well-grouped messages, so histories and well-grouped messages match one to one. */
  lemma DecodingReadsBack(messages: seq<Chat>)
    requires WellGrouped(messages)
    ensures Encode(Decode(messages)) == messages
  {
    DraftOfDecoded(messages);
    ReopenedFlushes(messages);
  }

  // ----- Runs of calls -----

  predicate EndsInCall(items: seq<Item>) {
    items != [] && items[|items| - 1].Call?
  }

  /** The maximal runs of adjacent calls, in order. */
  function Runs(items: seq<Item>): (runs: seq<seq<ToolCall>>)
    ensures EndsInCall(items) ==> runs != []
  {
    if items == [] then []
    else
      var init, last := items[..|items| - 1], items[|items| - 1];
      var before := Runs(init);
      if !last.Call? then before
      else if EndsInCall(init) then before[|before| - 1 := before[|before| - 1] + [last.call]]
      else before + [[last.call]]
  }

  /** The calls of the assistant messages that hold any, in order. */
  function Groups(messages: seq<Chat>): seq<seq<ToolCall>> {
    if messages == [] then []
    else Groups(messages[..|messages| - 1]) + GroupOf(messages[|messages| - 1])
  }

  function GroupOf(m: Chat): seq<seq<ToolCall>> {
    if m.AssistantChat? && m.calls != [] then [m.calls] else []
  }

  lemma GroupsMore(messages: seq<Chat>, m: Chat)
    ensures Groups(messages + [m]) == Groups(messages) + GroupOf(m)
  {
    assert (messages + [m])[..|messages|] == messages;
  }

  function PendingGroup(pending: seq<ToolCall>): seq<seq<ToolCall>> {
    if pending == [] then [] else [pending]
  }

  lemma FlushingAddsGroup(d: Draft)
    ensures Groups(Flushed(d)) == Groups(d.messages) + PendingGroup(d.pending)
  {
    var n := |d.messages|;
    if d.pending == [] {
      assert Groups(d.messages) + [] == Groups(d.messages);
    } else if n > 0 && AwaitsCalls(d.messages[n - 1]) {
      var init, last := d.messages[..n - 1], d.messages[n - 1];
      assert Flushed(d) == init + [last.(calls := d.pending)] && d.messages == init + [last];
      GroupsMore(init, last);
      GroupsMore(init, last.(calls := d.pending));
    } else {
      GroupsMore(d.messages, AssistantChat(None, d.pending));
    }
  }

  lemma OneMoreCall(before: seq<seq<ToolCall>>, pending: seq<ToolCall>, call: ToolCall)
    requires pending != []
    ensures (before + [pending])[|before| := pending + [call]] == before + [pending + [call]]
  {
  }

  ghost predicate HoldsRuns(d: Draft, items: seq<Item>) {
    && Runs(items) == Groups(d.messages) + PendingGroup(d.pending)
    && (EndsInCall(items) <==> d.pending != [])
  }

  lemma CallJoinsRun(d: Draft, items: seq<Item>, call: ToolCall)
    requires HoldsRuns(d, items)
    ensures HoldsRuns(d.(pending := d.pending + [call]), items + [Call(call)])
  {
    assert (items + [Call(call)])[..|items|] == items;
    if d.pending != [] {
      OneMoreCall(Groups(d.messages), d.pending, call);
    } else {
      assert [] + [call] == [call];
      assert Groups(d.messages) + [] == Groups(d.messages);
    }
  }

  lemma MessageEndsRun(messages: seq<Chat>, items: seq<Item>, item: Item)
    requires Groups(messages) == Runs(items) && !item.Call?
    ensures HoldsRuns(Draft(messages + [ChatOf(item)], []), items + [item])
  {
    assert (items + [item])[..|items|] == items;
    GroupsMore(messages, ChatOf(item));
    assert Groups(messages) + [] + [] == Groups(messages);
  }

  lemma {:induction false} DraftHoldsRuns(items: seq<Item>)
    ensures HoldsRuns(Drafted(items), items)
  {
    if items != [] {
      var init, last := items[..|items| - 1], items[|items| - 1];
      assert items == init + [last];
      DraftHoldsRuns(init);
      DraftedMore(init, last);
      if last.Call? {
        CallJoinsRun(Drafted(init), init, last.call);
      } else {
        FlushingAddsGroup(Drafted(init));
        MessageEndsRun(Flushed(Drafted(init)), init, last);
      }
    }
  }

  /** Every maximal run of calls lands, whole and in order, in exactly one assistant message. */
  lemma RunsBecomeGroups(items: seq<Item>)
    ensures Groups(Encode(items)) == Runs(items)
  {
    DraftHoldsRuns(items);
    FlushingAddsGroup(Drafted(items));
  }

  /** The whole request: what is sent reads back as the instructions and then every item. */
  lemma TranslationReadsBack(wrap: string -> string, request: Request)
    requires Translated(wrap, request).Ok?
    ensures var messages := Translated(wrap, request).value;
            && ParsedAll(wrap, ValuesOf(request)).Ok?
            && Decode(messages) == Preamble(request) + ParsedAll(wrap, ValuesOf(request)).value
            && Groups(messages) == Runs(Preamble(request) + ParsedAll(wrap, ValuesOf(request)).value)
            && WellGrouped(messages)
  {
    var items := Preamble(request) + ParsedAll(wrap, ValuesOf(request)).value;
    EncodingReadsBack(items);
    RunsBecomeGroups(items);
    EncodingIsWellGrouped(items);
  }
}
