/**
 What flattening does to a whole request, field by field, said on the request itself.
 */
module NamespaceRequest {
  import opened Sequences
  import opened Namespace
  import Text

  // ----- Strings at keys -----

  /** Under this key the fields hold this non-empty string. */
  predicate Holds(f: Fields, key: string, text: string) {
    key in f && f[key] == Str(text) && text != ""
  }

  /** The fields hold some non-empty string there. */
  predicate HasText(f: Fields, key: string) {
    key in f && f[key].Str? && f[key].text != ""
  }

  // ----- Malformed namespaces -----

  /** A child that is no function object with a name. */
  predicate BadChild(child: Json) {
    || !child.Obj?
    || !("type" in child.fields && child.fields["type"] == Str("function"))
    || !HasText(child.fields, "name")
  }

  /** A namespace tool without a name, without a list of tools, or with a bad child. */
  predicate Malformed(tool: Json) {
    && tool.Obj? && "type" in tool.fields && tool.fields["type"] == Str("namespace")
    && (|| !HasText(tool.fields, "name")
        || !("tools" in tool.fields && tool.fields["tools"].Arr?)
        || exists child :: child in tool.fields["tools"].items && BadChild(child))
  }

  lemma {:induction false} ChildrenAreRefusedExactlyWhen(ns: string, description: string, children: seq<Json>)
    ensures ChildEntries(ns, description, children).Err? <==> exists child :: child in children && BadChild(child)
    ensures var entries := ChildEntries(ns, description, children);
            entries.Ok? ==>
              && |entries.value| == |children|
              && forall i :: 0 <= i < |children| ==>
                   children[i].Obj? && entries.value[i] == Child(ns, description, children[i].fields)
  {
    if children != [] {
      var init, last := children[..|children| - 1], children[|children| - 1];
      assert children == init + [last];
      ChildrenAreRefusedExactlyWhen(ns, description, init);
      if ChildEntries(ns, description, init).Err? {
        var child :| child in init && BadChild(child);
        assert child in children;
      } else if BadChild(last) {
        assert last in children;
      }
    }
  }

  lemma ToolIsRefusedExactlyWhen(tool: Json)
    ensures ToolEntries(tool).Err? <==> Malformed(tool)
  {
    if tool.Obj? && TypeIs(tool.fields, "namespace") && HasText(tool.fields, "name")
        && "tools" in tool.fields && tool.fields["tools"].Arr? {
      ChildrenAreRefusedExactlyWhen(TextAt(tool.fields, "name"), TextAt(tool.fields, "description"),
          tool.fields["tools"].items);
    }
  }

  /** A request is refused exactly when one of its tools is a malformed namespace. */
  lemma RequestIsRefusedExactlyWhen(payload: Fields)
    ensures Flatten(payload).Err? <==>
            HasList(payload, "tools") && exists tool :: tool in payload["tools"].items && Malformed(tool)
  {
    if HasList(payload, "tools") {
      var tools := payload["tools"].items;
      RefusedExactlyWhenMalformed(tools);
      if Entries(tools).Err? {
        var i :| 0 <= i < |tools| && ToolEntries(tools[i]).Err?;
        ToolIsRefusedExactlyWhen(tools[i]);
        assert tools[i] in tools;
      } else {
        forall tool | tool in tools
          ensures !Malformed(tool)
        {
          var i :| 0 <= i < |tools| && tools[i] == tool;
          ToolIsRefusedExactlyWhen(tools[i]);
        }
      }
    }
  }

  // ----- The entries of the tool list -----

  /** A tool gives itself, its children if it is a namespace, and nothing if it is no object. */
  predicate Gives(tool: Json, entries: seq<Entry>) {
    if !tool.Obj? then entries == []
    else if !("type" in tool.fields && tool.fields["type"] == Str("namespace")) then entries == [Top(tool)]
    else
      && HasText(tool.fields, "name") && "tools" in tool.fields && tool.fields["tools"].Arr?
      && |entries| == |tool.fields["tools"].items|
      && forall i :: 0 <= i < |entries| ==> GivesChild(tool, tool.fields["tools"].items[i], entries[i])
  }

  predicate GivesChild(tool: Json, child: Json, e: Entry)
    requires tool.Obj?
  {
    && e.Child? && Holds(tool.fields, "name", e.ns) && child.Obj? && e.fields == child.fields
    && e.description == TextAt(tool.fields, "description")
  }

  lemma ToolGives(tool: Json)
    requires ToolEntries(tool).Ok?
    ensures Gives(tool, ToolEntries(tool).value)
  {
    if tool.Obj? && TypeIs(tool.fields, "namespace") {
      ChildrenAreRefusedExactlyWhen(TextAt(tool.fields, "name"), TextAt(tool.fields, "description"),
          tool.fields["tools"].items);
    }
  }

  /** The entries are those of the tools, one tool after the other. */
  ghost predicate GivenBy(tools: seq<Json>, parts: seq<seq<Entry>>, entries: seq<Entry>) {
    && |parts| == |tools| && entries == Flat(parts)
    && forall i :: 0 <= i < |tools| ==> Gives(tools[i], parts[i])
  }

  function Flat(parts: seq<seq<Entry>>): seq<Entry> {
    if parts == [] then [] else Flat(parts[..|parts| - 1]) + parts[|parts| - 1]
  }

  lemma {:induction false} EntriesAreGiven(tools: seq<Json>) returns (parts: seq<seq<Entry>>)
    requires Entries(tools).Ok?
    ensures GivenBy(tools, parts, Entries(tools).value)
  {
    if tools == [] {
      parts := [];
    } else {
      var init, last := tools[..|tools| - 1], tools[|tools| - 1];
      var before := EntriesAreGiven(init);
      ToolGives(last);
      parts := before + [ToolEntries(last).value];
      assert parts[..|parts| - 1] == before;
    }
  }

  // ----- Descriptions -----

  ghost predicate IsSpaces(s: string) {
    forall c <- s :: Text.IsSpace(c)
  }

  /** The text without the whitespace around it. */
  ghost predicate IsTrimmedOf(s: string, core: string) {
    && (core == "" || (!Text.IsSpace(core[0]) && !Text.IsSpace(core[|core| - 1])))
    && exists left, right :: Surround(s, left, core, right)
  }

  ghost predicate Surround(s: string, left: string, core: string, right: string) {
    s == left + core + right && IsSpaces(left) && IsSpaces(right)
  }

  lemma {:induction false} StripRightCuts(s: string)
    ensures var r := StripRight(s);
            && r <= s && IsSpaces(s[|r|..]) && (r == "" || !Text.IsSpace(r[|r| - 1]))
  {
    if s != [] && Text.IsSpace(s[|s| - 1]) {
      StripRightCuts(s[..|s| - 1]);
      var r := StripRight(s);
      assert s[|r|..] == s[..|s| - 1][|r|..] + [s[|s| - 1]];
    }
  }

  lemma {:induction false} StripLeftCuts(s: string)
    ensures var r := StripLeft(s);
            && |r| <= |s| && s[|s| - |r|..] == r && IsSpaces(s[..|s| - |r|]) && (r == "" || !Text.IsSpace(r[0]))
  {
    if s != [] && Text.IsSpace(s[0]) {
      StripLeftCuts(s[1..]);
      var r := StripLeft(s);
      assert s[..|s| - |r|] == [s[0]] + s[1..][..|s| - 1 - |r|];
    }
  }

  lemma CoreIsBetween(s: string, r: string, core: string)
    requires r <= s && |core| <= |r| && r[|r| - |core|..] == core
    ensures s == r[..|r| - |core|] + core + s[|r|..]
  {
    assert s == r + s[|r|..] && r == r[..|r| - |core|] + core;
  }

  lemma StripTrims(s: string)
    ensures IsTrimmedOf(s, Strip(s))
  {
    var r := StripRight(s);
    var core := StripLeft(r);
    StripRightCuts(s);
    StripLeftCuts(r);
    CoreIsBetween(s, r, core);
    assert Surround(s, r[..|r| - |core|], core, s[|r|..]);
    assert core != "" ==> core[|core| - 1] == r[|r| - 1];
  }

  /** The flat tool's description: the namespace's before the child's own, both trimmed, if the former says anything. */
  ghost predicate IsDescribed(tool: Json, e: Entry)
    requires e.Child?
  {
    && tool.Obj?
    && forall outer, inner | IsTrimmedOf(e.description, outer) && IsTrimmedOf(TextAt(e.fields, "description"), inner) ::
         if outer == "" then
           ("description" in tool.fields <==> "description" in e.fields)
           && ("description" in e.fields ==> tool.fields["description"] == e.fields["description"])
         else
           "description" in tool.fields
           && tool.fields["description"] == Str(if inner == "" then outer else outer + "\n\n" + inner)
  }

  /** A character that is no space lies in the core. */
  lemma NoSpaceIsInCore(s: string, left: string, core: string, right: string, k: nat)
    requires Surround(s, left, core, right) && k < |s| && !Text.IsSpace(s[k])
    ensures |left| <= k < |left| + |core|
  {
    var n := |left| + |core|;
    assert forall i :: 0 <= i < |left| ==> s[i] == left[i] && left[i] in left;
    assert forall i :: n <= i < |s| ==> s[i] == right[i - n] && right[i - n] in right;
  }

  /** A core that begins and ends with no space lies in any other. */
  lemma CoreLiesInCore(s: string, l: string, a: string, r: string, l': string, b: string, r': string)
    requires Surround(s, l, a, r) && Surround(s, l', b, r')
    requires a != "" && !Text.IsSpace(a[0]) && !Text.IsSpace(a[|a| - 1])
    ensures |l'| <= |l| && |l| + |a| <= |l'| + |b|
  {
    assert s[|l|] == a[0] && s[|l| + |a| - 1] == a[|a| - 1];
    NoSpaceIsInCore(s, l', b, r', |l|);
    NoSpaceIsInCore(s, l', b, r', |l| + |a| - 1);
  }

  lemma OneTrimming(s: string, a: string, b: string)
    requires IsTrimmedOf(s, a) && IsTrimmedOf(s, b)
    ensures a == b
  {
    var l, r :| Surround(s, l, a, r);
    var l', r' :| Surround(s, l', b, r');
    if a != "" {
      CoreLiesInCore(s, l, a, r, l', b, r');
    }
    if b != "" {
      CoreLiesInCore(s, l', b, r', l, a, r);
    }
    assert a == s[|l|..|l| + |a|] && b == s[|l'|..|l'| + |b|];
  }

  lemma FlatChildIsDescribed(e: Entry, alias: string)
    requires e.Child?
    ensures IsDescribed(FlatChild(e.fields, e.description, alias), e)
  {
    StripTrims(e.description);
    StripTrims(TextAt(e.fields, "description"));
    var f := e.fields["name" := Str(alias)] - {"defer_loading"};
    assert TextAt(f, "description") == TextAt(e.fields, "description");
    forall outer, inner | IsTrimmedOf(e.description, outer) && IsTrimmedOf(TextAt(e.fields, "description"), inner)
      ensures outer == Strip(e.description) && inner == Strip(TextAt(e.fields, "description"))
    {
      OneTrimming(e.description, outer, Strip(e.description));
      OneTrimming(TextAt(e.fields, "description"), inner, Strip(TextAt(e.fields, "description")));
    }
  }

  lemma {:induction false} PlacedToolsAreDescribed(p: Placement, entries: seq<Entry>)
    requires p.tools == []
    ensures var q := PlaceAll(p, entries);
            && |q.tools| == |entries|
            && forall i :: 0 <= i < |entries| && entries[i].Child? ==> IsDescribed(q.tools[i], entries[i])
  {
    if entries != [] {
      var init, last := entries[..|entries| - 1], entries[|entries| - 1];
      PlacedToolsAreDescribed(p, init);
      if last.Child? {
        FlatChildIsDescribed(last, Alias((last.ns, TextAt(last.fields, "name")), PlaceAll(p, init).tables.occupied));
      }
    }
  }

  // ----- Calls in the input, and the choice -----

  /** A call of a namespaced function. */
  predicate IsNamespacedCall(item: Json) {
    && item.Obj? && "type" in item.fields
    && (item.fields["type"] == Str("function_call") || item.fields["type"] == Str("custom_tool_call"))
    && HasText(item.fields, "namespace") && HasText(item.fields, "name")
  }

  /** The value under an alias for its namespaced name, and otherwise as it was. */
  ghost predicate IsUnderAlias(value: Json, flat: Json, reverse: map<string, Qualified>)
    requires value.Obj? && HasText(value.fields, "namespace") && HasText(value.fields, "name")
  {
    && flat.Obj? && flat.fields.Keys == value.fields.Keys - {"namespace"}
    && flat.fields["name"].Str? && flat.fields["name"].text in reverse
    && reverse[flat.fields["name"].text] == (value.fields["namespace"].text, value.fields["name"].text)
    && forall k <- flat.fields :: k != "name" ==> flat.fields[k] == value.fields[k]
  }

  /** A namespaced call is under its alias, any other item as it was. */
  ghost predicate IsFlatItem(item: Json, flat: Json, reverse: map<string, Qualified>) {
    if IsNamespacedCall(item) then IsUnderAlias(item, flat, reverse) else flat == item
  }

  ghost predicate AreFlatItems(items: seq<Json>, flat: seq<Json>, reverse: map<string, Qualified>) {
    |flat| == |items| && forall i :: 0 <= i < |items| ==> IsFlatItem(items[i], flat[i], reverse)
  }

  /** An object with a namespace and a name is under its alias, any other choice as it was. */
  ghost predicate IsFlatChoice(choice: Json, flat: Json, reverse: map<string, Qualified>) {
    if choice.Obj? && HasText(choice.fields, "namespace") && HasText(choice.fields, "name")
    then IsUnderAlias(choice, flat, reverse)
    else flat == choice
  }

  lemma EnsuringGivesAlias(value: Json, t: Tables, declared: set<string>, later: Tables)
    requires Sound(t, declared) && value.Obj? && IsNamespaced(value.fields)
    requires Extends(Ensured(QualifiedName(value.fields), t), later)
    ensures var q := QualifiedName(value.fields);
            IsUnderAlias(value, Obj(UnderAlias(value.fields, Ensured(q, t).aliases[q])), later.reverse)
  {
    EnsuredIsSound(QualifiedName(value.fields), t, declared);
  }

  lemma RewrittenItemIsFlat(item: Json, t: Tables, declared: set<string>, later: Tables)
    requires Sound(t, declared) && Extends(RewriteItem(item, t).1, later)
    ensures IsFlatItem(item, RewriteItem(item, t).0, later.reverse)
  {
    if IsNamespacedCall(item) {
      EnsuringGivesAlias(item, t, declared, later);
    }
  }

  lemma {:induction false} RewrittenInputIsFlat(items: seq<Json>, t: Tables, declared: set<string>, later: Tables)
    requires Sound(t, declared) && Extends(RewriteInput(items, t).tables, later)
    ensures AreFlatItems(items, RewriteInput(items, t).items, later.reverse)
  {
    if items != [] {
      var init, last := items[..|items| - 1], items[|items| - 1];
      assert items == init + [last];
      var before := RewriteInput(init, t).tables;
      RewritingIsSound(init, t, declared);
      RewritingItemIsSound(last, before, declared);
      ExtendsIsTransitive(before, RewriteItem(last, before).1, later);
      RewrittenInputIsFlat(init, t, declared, later);
      RewrittenItemIsFlat(last, before, declared, later);
    }
  }

  lemma RewrittenChoiceIsFlat(choice: Json, t: Tables, declared: set<string>)
    requires Sound(t, declared)
    ensures var r := RewriteChoice(choice, t);
            Sound(r.1, declared) && Extends(t, r.1) && IsFlatChoice(choice, r.0, r.1.reverse)
  {
    if choice.Obj? && IsNamespaced(choice.fields) {
      EnsuredIsSound(QualifiedName(choice.fields), t, declared);
      EnsuringGivesAlias(choice, t, declared, RewriteChoice(choice, t).1);
    }
  }

  // ----- The whole request -----

  ghost predicate HasNamespacedTool(tools: seq<Json>) {
    exists tool, child :: tool in tools && IsChildOf(child, tool)
  }

  predicate IsChildOf(child: Json, tool: Json) {
    && tool.Obj? && "type" in tool.fields && tool.fields["type"] == Str("namespace")
    && "tools" in tool.fields && tool.fields["tools"].Arr? && child in tool.fields["tools"].items
  }

  lemma {:induction false} PlacingFillsTable(p: Placement, entries: seq<Entry>)
    ensures PlaceAll(p, entries).tables.reverse == map[] <==>
            p.tables.reverse == map[] && forall e <- entries :: e.Top?
  {
    if entries != [] {
      var init, last := entries[..|entries| - 1], entries[|entries| - 1];
      assert entries == init + [last];
      PlacingFillsTable(p, init);
      if last.Child? {
        var q := PlaceAll(p, init);
        var alias := Alias((last.ns, TextAt(last.fields, "name")), q.tables.occupied);
        assert alias in PlaceAll(p, entries).tables.reverse;
      }
    }
  }

  lemma {:induction false} FlatHasPart(parts: seq<seq<Entry>>, e: Entry)
    ensures e in Flat(parts) <==> exists i :: 0 <= i < |parts| && e in parts[i]
  {
    if parts != [] {
      var n := |parts| - 1;
      FlatHasPart(parts[..n], e);
      assert forall i :: 0 <= i < n ==> parts[..n][i] == parts[i];
    }
  }

  lemma ChildrenAreChildren(tools: seq<Json>)
    requires Entries(tools).Ok?
    ensures (exists e :: e in Entries(tools).value && e.Child?) <==> HasNamespacedTool(tools)
  {
    var entries := Entries(tools).value;
    var parts := EntriesAreGiven(tools);
    if exists e :: e in entries && e.Child? {
      var e :| e in entries && e.Child?;
      FlatHasPart(parts, e);
      var i :| 0 <= i < |parts| && e in parts[i];
      assert Gives(tools[i], parts[i]);
      var k :| 0 <= k < |parts[i]| && parts[i][k] == e;
      assert IsChildOf(tools[i].fields["tools"].items[k], tools[i]) && tools[i] in tools;
    }
    if HasNamespacedTool(tools) {
      var tool, child :| tool in tools && IsChildOf(child, tool);
      var i :| 0 <= i < |tools| && tools[i] == tool;
      assert Gives(tools[i], parts[i]);
      var k :| 0 <= k < |tool.fields["tools"].items| && tool.fields["tools"].items[k] == child;
      FlatHasPart(parts, parts[i][k]);
      assert parts[i][k] in entries && parts[i][k].Child?;
    }
  }

  lemma RequestWithoutNamespaces(payload: Fields)
    requires Flatten(payload).Ok? && !(HasList(payload, "tools") && HasNamespacedTool(payload["tools"].items))
    ensures Flatten(payload).value.payload == payload && Flatten(payload).value.reverse == map[]
  {
    if HasList(payload, "tools") {
      var tools := payload["tools"].items;
      ChildrenAreChildren(tools);
      PlacingFillsTable(Start(tools), Entries(tools).value);
    }
  }

  /** Each entry's flat tool: the tool itself, or the child under an alias, described, its other fields kept. */
  ghost predicate AreFlatTools(entries: seq<Entry>, flat: seq<Json>, reverse: map<string, Qualified>) {
    && AllStandFor(flat, entries, reverse)
    && (forall i :: 0 <= i < |entries| && entries[i].Child? ==> IsDescribed(flat[i], entries[i]))
  }

  /** The flat request, field by field. */
  ghost predicate IsFlatRequest(payload: Fields, entries: seq<Entry>, flat: Flat) {
    && flat.payload.Keys == payload.Keys
    && "tools" in flat.payload && flat.payload["tools"].Arr?
    && AreFlatTools(entries, flat.payload["tools"].items, flat.reverse)
    && (HasList(payload, "input") ==>
          && flat.payload["input"].Arr?
          && AreFlatItems(payload["input"].items, flat.payload["input"].items, flat.reverse))
    && ("input" in payload && !payload["input"].Arr? ==> flat.payload["input"] == payload["input"])
    && ("tool_choice" in payload ==> IsFlatChoice(payload["tool_choice"], flat.payload["tool_choice"], flat.reverse))
    && (forall k <- payload :: k !in {"tools", "input", "tool_choice"} ==> flat.payload[k] == payload[k])
  }

  lemma InputFieldIsFlat(payload: Fields, t: Tables, declared: set<string>)
    requires Sound(t, declared)
    ensures var r := RewriteInputField(payload, t);
            && Sound(r.1, declared) && Extends(t, r.1) && r.0.Keys == payload.Keys
            && (forall k <- payload :: k != "input" ==> r.0[k] == payload[k])
            && (HasList(payload, "input") ==>
                  r.0["input"] == Arr(RewriteInput(payload["input"].items, t).items)
                  && r.1 == RewriteInput(payload["input"].items, t).tables)
            && ("input" in payload && !payload["input"].Arr? ==> r.0["input"] == payload["input"])
  {
    if HasList(payload, "input") {
      RewritingIsSound(payload["input"].items, t, declared);
    }
  }

  lemma ChoiceFieldIsFlat(payload: Fields, t: Tables, declared: set<string>)
    requires Sound(t, declared)
    ensures var r := RewriteChoiceField(payload, t);
            && Sound(r.1, declared) && Extends(t, r.1) && r.0.Keys == payload.Keys
            && (forall k <- payload :: k != "tool_choice" ==> r.0[k] == payload[k])
            && ("tool_choice" in payload ==> IsFlatChoice(payload["tool_choice"], r.0["tool_choice"], r.1.reverse))
  {
    if "tool_choice" in payload {
      RewrittenChoiceIsFlat(payload["tool_choice"], t, declared);
    }
  }

  lemma RestIsFlat(payload: Fields, p: Placement, declared: set<string>)
    requires Sound(p.tables, declared) && "tools" in payload
    ensures var rest := RewriteRest(payload, p);
            && Extends(p.tables, rest.1)
            && rest.0.Keys == payload.Keys && rest.0["tools"] == Arr(p.tools)
            && (forall k <- payload :: k !in {"tools", "input", "tool_choice"} ==> rest.0[k] == payload[k])
            && ("input" in payload && !payload["input"].Arr? ==> rest.0["input"] == payload["input"])
            && ("tool_choice" in payload ==>
                  IsFlatChoice(payload["tool_choice"], rest.0["tool_choice"], rest.1.reverse))
            && (HasList(payload, "input") ==>
                  && rest.0["input"].Arr?
                  && AreFlatItems(payload["input"].items, rest.0["input"].items, rest.1.reverse))
  {
    var before := payload["tools" := Arr(p.tools)];
    InputFieldIsFlat(before, p.tables, declared);
    var r := RewriteInputField(before, p.tables);
    ChoiceFieldIsFlat(r.0, r.1, declared);
    var last := RewriteChoiceField(r.0, r.1);
    ExtendsIsTransitive(p.tables, r.1, last.1);
    if HasList(payload, "input") {
      RewrittenInputIsFlat(payload["input"].items, p.tables, declared, last.1);
    }
  }

  /** The positions of the namespace tools. */
  ghost function Namespaces(tools: seq<Json>): set<nat> {
    set i: nat | i < |tools| && IsNamespace(tools[i])
  }

  lemma OneMoreTool(init: seq<Json>, last: Json)
    ensures Namespaces(init + [last]) == Namespaces(init) + if IsNamespace(last) then {|init|} else {}
  {
    var all := init + [last];
    assert all[|init|] == last && forall i :: 0 <= i < |init| ==> all[i] == init[i];
  }

  lemma {:induction false} NamespacesAreCounted(tools: seq<Json>)
    ensures NamespaceCount(tools) == |Namespaces(tools)|
  {
    if tools != [] {
      var init, last := tools[..|tools| - 1], tools[|tools| - 1];
      NamespacesAreCounted(init);
      OneMoreTool(init, last);
      assert tools == init + [last] && |init| !in Namespaces(init);
    }
  }

  /**
   The reference form of flattening: without a namespaced tool the request is left alone; with one, every tool,
   every call in the input and the choice are under aliases that lead back, and nothing else changes.
   */
  lemma FlatRequestIsRight(payload: Fields)
    requires Flatten(payload).Ok?
    ensures !(HasList(payload, "tools") && HasNamespacedTool(payload["tools"].items)) ==>
              Flatten(payload).value.payload == payload && Flatten(payload).value.reverse == map[]
    ensures HasList(payload, "tools") && HasNamespacedTool(payload["tools"].items) ==>
              && exists parts, entries :: GivenBy(payload["tools"].items, parts, entries)
                                          && IsFlatRequest(payload, entries, Flatten(payload).value)
    ensures HasList(payload, "tools") && HasNamespacedTool(payload["tools"].items) ==>
              Flatten(payload).value.namespaces == |Namespaces(payload["tools"].items)|
  {
    if HasList(payload, "tools") && HasNamespacedTool(payload["tools"].items) {
      var tools := payload["tools"].items;
      var entries := Entries(tools).value;
      var p := PlaceAll(Start(tools), entries);
      var parts := EntriesAreGiven(tools);
      ChildrenAreChildren(tools);
      PlacingFillsTable(Start(tools), entries);
      FlattenedListIsFaithful(tools);
      PlacedToolsAreDescribed(Start(tools), entries);
      RestIsFlat(payload, p, Declared(tools));
      StandingSurvives(p.tools, entries, p.tables, RewriteRest(payload, p).1);
      NamespacesAreCounted(tools);
      assert GivenBy(tools, parts, entries) && IsFlatRequest(payload, entries, Flatten(payload).value);
    } else {
      RequestWithoutNamespaces(payload);
    }
  }

  /** No alias is the name of a tool declared at the top. */
  lemma AliasesAvoidTopTools(tools: seq<Json>, i: nat, top: Json)
    requires Entries(tools).Ok? && i < |Entries(tools).value| && Entries(tools).value[i].Child?
    requires top in tools && top.Obj? && HasText(top.fields, "name")
    requires !("type" in top.fields && top.fields["type"] == Str("namespace"))
    ensures i < |PlaceAll(Start(tools), Entries(tools).value).tools|
    ensures !Holds(top.fields, "name", NameOf(PlaceAll(Start(tools), Entries(tools).value).tools[i]))
  {
    FlattenedListIsFaithful(tools);
    assert TextAt(top.fields, "name") in Declared(tools);
  }

  /** The name is that of a tool declared at the top. */
  ghost predicate IsTopName(tools: seq<Json>, name: string) {
    exists top :: top in tools && top.Obj? && !("type" in top.fields && top.fields["type"] == Str("namespace"))
                  && Holds(top.fields, "name", name)
  }

  /** The name has been given to one of these children. */
  ghost predicate IsGiven(entries: seq<Entry>, flat: seq<Json>, name: string) {
    exists m :: 0 <= m < |entries| && m < |flat| && entries[m].Child? && NameOf(flat[m]) == name
  }

  lemma GivenToOneMore(entries: seq<Entry>, flat: seq<Json>, last: Entry, tool: Json, name: string)
    requires |flat| == |entries|
    ensures IsGiven(entries + [last], flat + [tool], name) <==>
            IsGiven(entries, flat, name) || (last.Child? && NameOf(tool) == name)
  {
    var all, tools, n := entries + [last], flat + [tool], |entries|;
    assert all[n] == last && tools[n] == tool;
    assert forall m :: 0 <= m < n ==> all[m] == entries[m] && tools[m] == flat[m];
    if IsGiven(entries, flat, name) {
      var m :| 0 <= m < n && entries[m].Child? && NameOf(flat[m]) == name;
      assert all[m].Child? && NameOf(tools[m]) == name;
    }
    if last.Child? && NameOf(tool) == name {
      assert all[n].Child? && NameOf(tools[n]) == name;
    }
  }

  lemma {:induction false} TableHoldsGivenNames(p: Placement, entries: seq<Entry>, name: string)
    requires p.tools == []
    ensures var q := PlaceAll(p, entries);
            && |q.tools| == |entries|
            && (name in q.tables.occupied <==> name in p.tables.occupied || IsGiven(entries, q.tools, name))
  {
    if entries != [] {
      var init, last := entries[..|entries| - 1], entries[|entries| - 1];
      assert entries == init + [last];
      TableHoldsGivenNames(p, init, name);
      var q, r := PlaceAll(p, init), PlaceAll(p, entries);
      assert r.tools == q.tools + [r.tools[|init|]];
      GivenToOneMore(init, q.tools, last, r.tools[|init|], name);
      if last.Child? {
        var alias := Alias((last.ns, TextAt(last.fields, "name")), q.tables.occupied);
        FlatChildStandsFor(last, alias, map[alias := (last.ns, TextAt(last.fields, "name"))]);
      }
    }
  }

  lemma DeclaredAreTopNames(tools: seq<Json>, name: string)
    ensures name in Declared(tools) <==> IsTopName(tools, name)
  {
    if name in Declared(tools) {
      var t :| t in tools && t.Obj? && !IsNamespace(t) && TextAt(t.fields, "name") != ""
          && TextAt(t.fields, "name") == name;
      assert Holds(t.fields, "name", name);
    }
    if IsTopName(tools, name) {
      var top :| top in tools && top.Obj? && !("type" in top.fields && top.fields["type"] == Str("namespace"))
          && Holds(top.fields, "name", name);
      assert TextAt(top.fields, "name") == name;
    }
  }

  lemma {:induction false} PlacedAt(p: Placement, entries: seq<Entry>, i: nat)
    requires p.tools == [] && i < |entries| && entries[i].Child?
    ensures var q := PlaceAll(p, entries[..i]);
            && |PlaceAll(p, entries).tools| == |entries|
            && NameOf(PlaceAll(p, entries).tools[i])
               == Alias((entries[i].ns, TextAt(entries[i].fields, "name")), q.tables.occupied)
            && PlaceAll(p, entries).tools[..i] == q.tools
  {
    var n := |entries| - 1;
    var init := entries[..n];
    PlacedToolsAreDescribed(p, entries);
    PlacedToolsAreDescribed(p, init);
    if i < n {
      assert init[..i] == entries[..i];
      PlacedAt(p, init, i);
      assert PlaceAll(p, entries).tools[..i] == PlaceAll(p, init).tools[..i];
    }
  }

  /**
   A child's alias is the first of its numbered names that is neither a tool's at the top nor the alias of a child
   before it.
   */
  lemma AliasIsFirstFreeName(tools: seq<Json>, i: nat) returns (last: nat)
    requires Entries(tools).Ok? && i < |Entries(tools).value| && Entries(tools).value[i].Child?
    ensures var entries := Entries(tools).value; var flat := PlaceAll(Start(tools), entries).tools;
            var q := (entries[i].ns, TextAt(entries[i].fields, "name"));
            && last >= 1 && i < |flat| && NameOf(flat[i]) == Candidate(q, last)
            && !IsTopName(tools, Candidate(q, last)) && !IsGiven(entries[..i], flat[..i], Candidate(q, last))
            && forall j :: 1 <= j < last ==>
                 IsTopName(tools, Candidate(q, j)) || IsGiven(entries[..i], flat[..i], Candidate(q, j))
  {
    var entries := Entries(tools).value;
    var q := (entries[i].ns, TextAt(entries[i].fields, "name"));
    var before := PlaceAll(Start(tools), entries[..i]);
    PlacedAt(Start(tools), entries, i);
    last := AliasIsFirstFree(q, 1, before.tables.occupied);
    forall name: string
      ensures name in before.tables.occupied <==> IsTopName(tools, name) || IsGiven(entries[..i], before.tools, name)
    {
      TableHoldsGivenNames(Start(tools), entries[..i], name);
      DeclaredAreTopNames(tools, name);
    }
  }

  // ----- Which kinds count as calls -----

  ghost predicate OccursAt(s: string, part: string, i: nat) {
    i + |part| <= |s| && s[i..i + |part|] == part
  }

  ghost predicate Occurs(s: string, part: string) {
    exists i :: OccursAt(s, part, i)
  }

  lemma {:induction false} ContainsExactlyWhenOccurs(s: string, part: string)
    ensures Contains(s, part) <==> Occurs(s, part)
  {
    if part <= s {
      assert OccursAt(s, part, 0);
    } else if s != "" {
      ContainsExactlyWhenOccurs(s[1..], part);
      if Occurs(s[1..], part) {
        var i: nat :| OccursAt(s[1..], part, i);
        assert s[i + 1..i + 1 + |part|] == s[1..][i..i + |part|];
        assert OccursAt(s, part, i + 1);
      }
      if Occurs(s, part) {
        var i: nat :| OccursAt(s, part, i);
        assert i != 0;
        assert s[1..][i - 1..i - 1 + |part|] == s[i..i + |part|];
        assert OccursAt(s[1..], part, i - 1);
      }
    }
  }

  /** The response object is a call under an alias: its type mentions a call, and its name is the alias. */
  lemma IsAliasCallExactlyWhen(f: Fields, reverse: map<string, Qualified>)
    ensures IsAliasCall(f, reverse) <==>
            && "name" in f && f["name"].Str? && f["name"].text in reverse
            && "type" in f && f["type"].Str?
            && (Occurs(f["type"].text, "function_call") || Occurs(f["type"].text, "custom_tool_call"))
  {
    ContainsExactlyWhenOccurs(TextAt(f, "type"), "function_call");
    ContainsExactlyWhenOccurs(TextAt(f, "type"), "custom_tool_call");
    if !("type" in f && f["type"].Str?) {
      assert forall i: nat :: !OccursAt("", "function_call", i) && !OccursAt("", "custom_tool_call", i);
    }
  }
}
