/**
 How a raw history item is read: which items are accepted, and what each accepted one becomes.
 */
module HistoryReading {
  import opened Sequences
  import opened History

  // ----- Message text -----

  /** All parts carry text. */
  predicate AllText(parts: seq<Part>) {
    forall part <- parts :: part.TextPart?
  }

  lemma AllTextOfMore(parts: seq<Part>, part: Part)
    ensures AllText(parts + [part]) <==> AllText(parts) && part.TextPart?
  {
    var all := parts + [part];
    assert part in all && forall x <- parts :: x in all;
  }

  lemma {:induction false} JoinedExactlyWhenAllText(parts: seq<Part>)
    ensures Joined(parts).Some? <==> AllText(parts)
  {
    if parts != [] {
      var init, last := parts[..|parts| - 1], parts[|parts| - 1];
      assert parts == init + [last];
      JoinedExactlyWhenAllText(init);
      AllTextOfMore(init, last);
    }
  }

  lemma JoinedMore(parts: seq<Part>, part: Part)
    requires parts != [] && AllText(parts + [part])
    ensures Joined(parts).Some? && part.TextPart?
    ensures Joined(parts + [part]) == Some(Joined(parts).value + "\n" + part.text)
  {
    AllTextOfMore(parts, part);
    JoinedExactlyWhenAllText(parts);
    assert (parts + [part])[..|parts|] == parts;
  }

  lemma JoinedOne(part: Part)
    requires part.TextPart?
    ensures Joined([part]) == Some(part.text)
  {
    assert [part][..0] == [];
  }

  lemma Associate(x: string, y: string, z: string)
    ensures (x + "\n" + y) + "\n" + z == x + "\n" + (y + "\n" + z)
  {
  }

  /** Parts are joined by line breaks, wherever the list is cut; a single part stays as it is. */
  lemma {:induction false} JoiningPutsLineBreaks(a: seq<Part>, b: seq<Part>)
    requires a != [] && b != [] && AllText(a + b)
    ensures Joined(a).Some? && Joined(b).Some?
    ensures Joined(a + b) == Some(Joined(a).value + "\n" + Joined(b).value)
  {
    var init, last := b[..|b| - 1], b[|b| - 1];
    assert b == init + [last];
    if init == [] {
      JoinedMore(a, last);
      JoinedOne(last);
      assert b == [last];
    } else {
      assert a + b == (a + init) + [last];
      JoinedMore(a + init, last);
      AllTextOfMore(a + init, last);
      JoiningPutsLineBreaks(a, init);
      AllTextPart(a, init, last);
      JoinedMore(init, last);
      Associate(Joined(a).value, Joined(init).value, last.text);
    }
  }

  lemma AllTextPart(a: seq<Part>, init: seq<Part>, last: Part)
    requires AllText(a + init) && last.TextPart?
    ensures AllText(init + [last])
  {
    assert forall x <- init :: x in a + init;
    AllTextOfMore(init, last);
  }

  /** The content is this text: a string as it is, or text parts joined. */
  ghost predicate Says(content: Content, text: string) {
    match content
    case Plain(plain) => text == plain
    case Parts(parts) => AllText(parts) && Joined(parts) == Some(text)
    case BadContent => false
  }

  ghost predicate IsText(content: Content) {
    content.Plain? || (content.Parts? && AllText(content.parts))
  }

  // ----- Accepted items -----

  predicate IsName(f: Field) {
    f.Text? && f.value != ""
  }

  /** The field that identifies a call: its call id, or its item id when there is none. */
  predicate Identifies(raw: RawItem, id: string)
    requires raw.RawCall?
  {
    if raw.callId == Absent then raw.id == Text(id) else raw.callId == Text(id)
  }

  /** What an item must have to be accepted. */
  ghost predicate Acceptable(raw: RawItem) {
    match raw
    case RawCall(callId, id, name, arguments) =>
      arguments.Some? && IsName(name) && IsName(if callId == Absent then id else callId)
    case RawOutput(callId, _) => IsName(callId)
    case RawMessage(role, phase, content) =>
      role in {"user", "assistant", "system", "developer"} && phase == Absent && IsText(content)
    case RawUnsupported => false
  }

  /** What an accepted item becomes. */
  ghost predicate Becomes(wrap: string -> string, raw: RawItem, item: Item) {
    match raw
    case RawCall(_, _, name, arguments) =>
      && arguments.Some? && item.Call? && name == Text(item.call.name)
      && Identifies(raw, item.call.id) && item.call.arguments == wrap(arguments.value)
    case RawOutput(callId, output) => item.Output? && callId == Text(item.callId) && item.text == output
    case RawMessage(role, _, content) =>
      && item.Message? && Says(content, item.text)
      && item.role == if role == "user" then User else if role == "assistant" then Assistant else System
    case RawUnsupported => false
  }

  /** An item is read exactly when acceptable, and then it becomes what it says. */
  lemma ItemIsReadExactlyWhen(wrap: string -> string, raw: RawItem)
    ensures Parsed(wrap, raw).Some? <==> Acceptable(raw)
    ensures Parsed(wrap, raw).Some? ==> Becomes(wrap, raw, Parsed(wrap, raw).value)
  {
    if raw.RawMessage? && raw.content.Parts? {
      JoinedExactlyWhenAllText(raw.content.parts);
    }
  }

  // ----- The whole request -----

  /** The raw items, a prompt being one user message. */
  ghost predicate Raws(request: Request, raws: seq<RawItem>) {
    match request.input
    case Prompt(text) => raws == [RawMessage("user", Absent, Plain(text))]
    case Values(values) => raws == values
  }

  /** The instructions, if any, as a first system message; then each raw item as what it becomes. */
  ghost predicate ReadsAs(wrap: string -> string, request: Request, raws: seq<RawItem>, items: seq<Item>) {
    var n := if request.instructions == "" then 0 else 1;
    && |items| == n + |raws|
    && (n == 1 ==> items[0] == Message(System, request.instructions))
    && forall i :: 0 <= i < |raws| ==> Becomes(wrap, raws[i], items[n + i])
  }

  /**
   For every request: it is refused exactly for a previous response, or at the first item that is not acceptable;
   otherwise the messages sent on decode to the instructions and what each raw item becomes, in order.
   */
  lemma RequestIsReadExactly(wrap: string -> string, request: Request, raws: seq<RawItem>)
    requires Raws(request, raws)
    ensures var r := Translated(wrap, request);
            && (r.Ok? <==> !request.previousResponseId && forall i :: 0 <= i < |raws| ==> Acceptable(raws[i]))
            && (r == Err(PreviousResponse) <==> request.previousResponseId)
            && (r.Err? && !request.previousResponseId ==>
                  && r.error.Invalid? && r.error.index < |raws| && !Acceptable(raws[r.error.index])
                  && forall i :: 0 <= i < r.error.index ==> Acceptable(raws[i]))
            && (r.Ok? ==> ReadsAs(wrap, request, raws, Decode(r.value)))
  {
    assert ValuesOf(request) == raws;
    RefusedExactlyWhen(wrap, raws);
    forall i | 0 <= i < |raws|
      ensures Parsed(wrap, raws[i]).Some? <==> Acceptable(raws[i])
      ensures Parsed(wrap, raws[i]).Some? ==> Becomes(wrap, raws[i], Parsed(wrap, raws[i]).value)
    {
      ItemIsReadExactlyWhen(wrap, raws[i]);
    }
    if Translated(wrap, request).Ok? {
      var items := ParsedAll(wrap, raws).value;
      EncodingReadsBack(Preamble(request) + items);
    }
  }
}
