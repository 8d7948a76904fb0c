/**
 Namespace tools: a request's namespaced functions are flattened to freshly
 named top-level functions, and the calls in the response are named back.
 */
module Namespace {
  import opened Sequences
  import opened Text

  type Fields = map<string, Json>

  datatype Json =
    | Null
    | Boolean(value: bool)
    | Number(number: real)
    | Str(text: string)
    | Arr(items: seq<Json>)
    | Obj(fields: Fields)

  datatype Error =
    | UnnamedNamespace
    | ToolsNotAList(ns: string)
    | ChildNotAnObject(ns: string)
    | ChildNotAFunction(ns: string)
    | UnnamedChild(ns: string)

  datatype Result<+T> = Ok(value: T) | Err(error: Error)

  /** A namespace and the function's name in it. */
  type Qualified = (string, string)

  function StringAt(f: Fields, key: string): Option<string> {
    if key in f && f[key].Str? then Some(f[key].text) else None
  }

  /** The string stored under the key; empty when there is none. */
  function TextAt(f: Fields, key: string): string {
    if StringAt(f, key).Some? then StringAt(f, key).value else ""
  }

  // ----- Fresh aliases -----

  /** The k-th name tried: the plain alias, then with suffix 2, 3, and so on. */
  function Candidate(q: Qualified, k: nat): string {
    if k < 2 then q.0 + "__" + q.1 else q.0 + "__" + q.1 + "__" + Decimal(k)
  }

  lemma CandidatesDiffer(q: Qualified, j: nat, k: nat)
    requires 1 <= j < k
    ensures Candidate(q, j) != Candidate(q, k)
  {
    var base := q.0 + "__" + q.1;
    DecimalReadsBack(j);
    DecimalReadsBack(k);
    if j == 1 {
      assert |Candidate(q, j)| < |Candidate(q, k)|;
    } else {
      assert Candidate(q, j)[|base| + 2..] == Decimal(j);
      assert Candidate(q, k)[|base| + 2..] == Decimal(k);
    }
  }

  function Tried(q: Qualified, k: nat): set<string> {
    set j | 1 <= j < k :: Candidate(q, j)
  }

  /** Each name tried and found taken uses up one occupied name. */
  lemma SearchAdvances(q: Qualified, k: nat, occupied: set<string>)
    requires k >= 1 && Candidate(q, k) in occupied
    ensures |occupied - Tried(q, k + 1)| < |occupied - Tried(q, k)|
  {
    forall j | 1 <= j < k
      ensures Candidate(q, j) != Candidate(q, k)
    {
      CandidatesDiffer(q, j, k);
    }
    assert Candidate(q, k) !in Tried(q, k);
    assert Tried(q, k + 1) == Tried(q, k) + {Candidate(q, k)};
    assert occupied - Tried(q, k) == (occupied - Tried(q, k + 1)) + {Candidate(q, k)};
  }

  function AliasFrom(q: Qualified, k: nat, occupied: set<string>): (alias: string)
    requires k >= 1
    ensures alias !in occupied && |alias| > |q.1|
    decreases |occupied - Tried(q, k)|
  {
    if Candidate(q, k) in occupied then
      SearchAdvances(q, k, occupied);
      AliasFrom(q, k + 1, occupied)
    else Candidate(q, k)
  }

  /** The first candidate that is not occupied. */
  function Alias(q: Qualified, occupied: set<string>): string {
    AliasFrom(q, 1, occupied)
  }

  /** The alias is the first of the numbered names that is free. */
  lemma {:induction false} AliasIsFirstFree(q: Qualified, k: nat, occupied: set<string>) returns (last: nat)
    requires k >= 1
    ensures last >= k && AliasFrom(q, k, occupied) == Candidate(q, last)
    ensures forall i :: k <= i < last ==> Candidate(q, i) in occupied
    decreases |occupied - Tried(q, k)|
  {
    if Candidate(q, k) in occupied {
      SearchAdvances(q, k, occupied);
      last := AliasIsFirstFree(q, k + 1, occupied);
    } else {
      last := k;
    }
  }

  method AllocateAlias(q: Qualified, occupied: set<string>) returns (alias: string, occupied': set<string>)
    ensures alias == Alias(q, occupied) && occupied' == occupied + {alias}
  {
    var base := q.0 + "__" + q.1;
    alias := base;
    var suffix := 2;
    while alias in occupied
      invariant suffix >= 2 && alias == Candidate(q, suffix - 1)
      invariant AliasFrom(q, suffix - 1, occupied) == Alias(q, occupied)
      decreases |occupied - Tried(q, suffix - 1)|
    {
      SearchAdvances(q, suffix - 1, occupied);
      alias := base + "__" + Decimal(suffix);
      suffix := suffix + 1;
    }
    occupied' := occupied + {alias};
  }

  // ----- The alias tables -----

  datatype Tables = Tables(occupied: set<string>, aliases: map<Qualified, string>, reverse: map<string, Qualified>)

  function Allocated(q: Qualified, t: Tables): Tables {
    var alias := Alias(q, t.occupied);
    Tables(t.occupied + {alias}, t.aliases[q := alias], t.reverse[alias := q])
  }

  /** The alias already declared for the function, or a new one. */
  function Ensured(q: Qualified, t: Tables): (t': Tables)
    ensures q in t'.aliases
  {
    if q in t.aliases then t else Allocated(q, t)
  }

  /** Aliases name exactly one function, are never a declared name, and never equal the name they stand for. */
  ghost predicate Sound(t: Tables, declared: set<string>) {
    && t.occupied == declared + t.reverse.Keys
    && t.reverse.Keys !! declared
    && (forall q <- t.aliases :: t.aliases[q] in t.reverse && t.reverse[t.aliases[q]] == q)
    && Longer(t.reverse)
  }

  ghost predicate Longer(reverse: map<string, Qualified>) {
    forall a <- reverse :: |a| > |reverse[a].1|
  }

  ghost predicate Extends(t: Tables, t': Tables) {
    && t.reverse.Keys <= t'.reverse.Keys
    && (forall a <- t.reverse :: t'.reverse[a] == t.reverse[a])
  }

  lemma AllocatedIsSound(q: Qualified, t: Tables, declared: set<string>)
    requires Sound(t, declared)
    ensures Sound(Allocated(q, t), declared) && Extends(t, Allocated(q, t))
    ensures Alias(q, t.occupied) !in t.reverse && Alias(q, t.occupied) !in declared
  {
  }

  // ----- Flattening the tool list -----

  /** One tool of the flattened list, before its alias is chosen. */
  datatype Entry = Top(tool: Json) | Child(ns: string, description: string, fields: Fields)

  function TypeIs(f: Fields, kind: string): bool {
    "type" in f && f["type"] == Str(kind)
  }

  predicate IsNamespace(tool: Json) {
    tool.Obj? && TypeIs(tool.fields, "namespace")
  }

  function ChildEntry(ns: string, description: string, child: Json): Result<Entry> {
    if !child.Obj? then Err(ChildNotAnObject(ns))
    else if !TypeIs(child.fields, "function") then Err(ChildNotAFunction(ns))
    else if TextAt(child.fields, "name") == "" then Err(UnnamedChild(ns))
    else Ok(Child(ns, description, child.fields))
  }

  function ChildEntries(ns: string, description: string, children: seq<Json>): Result<seq<Entry>> {
    if children == [] then Ok([])
    else
      var before := ChildEntries(ns, description, children[..|children| - 1]);
      if before.Err? then before
      else
        var last := ChildEntry(ns, description, children[|children| - 1]);
        if last.Err? then Err(last.error) else Ok(before.value + [last.value])
  }

  function ToolEntries(tool: Json): Result<seq<Entry>> {
    if !tool.Obj? then Ok([])
    else if !IsNamespace(tool) then Ok([Top(tool)])
    else
      var ns := TextAt(tool.fields, "name");
      if ns == "" then Err(UnnamedNamespace)
      else if !("tools" in tool.fields && tool.fields["tools"].Arr?) then Err(ToolsNotAList(ns))
      else ChildEntries(ns, TextAt(tool.fields, "description"), tool.fields["tools"].items)
  }

  function Entries(tools: seq<Json>): Result<seq<Entry>> {
    if tools == [] then Ok([])
    else
      var before := Entries(tools[..|tools| - 1]);
      if before.Err? then before
      else
        var last := ToolEntries(tools[|tools| - 1]);
        if last.Err? then last else Ok(before.value + last.value)
  }

  function NamespaceCount(tools: seq<Json>): nat {
    if tools == [] then 0
    else NamespaceCount(tools[..|tools| - 1]) + if IsNamespace(tools[|tools| - 1]) then 1 else 0
  }

  function Strip(s: string): string {
    StripLeft(StripRight(s))
  }

  function StripLeft(s: string): string {
    if s != [] && IsSpace(s[0]) then StripLeft(s[1..]) else s
  }

  function StripRight(s: string): string {
    if s != [] && IsSpace(s[|s| - 1]) then StripRight(s[..|s| - 1]) else s
  }

  function Described(f: Fields, description: string): Fields {
    var outer, inner := Strip(description), Strip(TextAt(f, "description"));
    if outer == "" then f
    else f["description" := Str(if inner == "" then outer else outer + "\n\n" + inner)]
  }

  function FlatChild(f: Fields, description: string, alias: string): Json {
    Obj(Described(f["name" := Str(alias)] - {"defer_loading"}, description))
  }

  datatype Placement = Placement(tools: seq<Json>, tables: Tables)

  function Place(p: Placement, e: Entry): Placement {
    match e
    case Top(tool) => Placement(p.tools + [tool], p.tables)
    case Child(ns, description, f) =>
      var q := (ns, TextAt(f, "name"));
      Placement(p.tools + [FlatChild(f, description, Alias(q, p.tables.occupied))], Allocated(q, p.tables))
  }

  function PlaceAll(p: Placement, entries: seq<Entry>): Placement {
    if entries == [] then p
    else Place(PlaceAll(p, entries[..|entries| - 1]), entries[|entries| - 1])
  }

  function Declared(tools: seq<Json>): set<string> {
    set t | t in tools && t.Obj? && !IsNamespace(t) && TextAt(t.fields, "name") != "" :: TextAt(t.fields, "name")
  }

  function Start(tools: seq<Json>): Placement {
    Placement([], Tables(Declared(tools), map[], map[]))
  }

  lemma {:induction false} PlaceAllConcat(p: Placement, a: seq<Entry>, b: seq<Entry>)
    ensures PlaceAll(p, a + b) == PlaceAll(PlaceAll(p, a), b)
  {
    if b == [] {
      assert a + b == a;
    } else {
      PlaceAllConcat(p, a, b[..|b| - 1]);
      assert (a + b)[..|a + b| - 1] == a + b[..|b| - 1];
    }
  }

  /** The two nested loops over namespaces and their children. */
  method FlattenTools(tools: seq<Json>) returns (r: Result<Placement>, namespaces: nat)
    ensures Entries(tools).Err? ==> r == Err(Entries(tools).error)
    ensures Entries(tools).Ok? ==> r == Ok(PlaceAll(Start(tools), Entries(tools).value))
    ensures r.Ok? ==> namespaces == NamespaceCount(tools)
  {
    var p := Start(tools);
    namespaces := 0;
    for i := 0 to |tools|
      invariant Entries(tools[..i]).Ok? && p == PlaceAll(Start(tools), Entries(tools[..i]).value)
      invariant namespaces == NamespaceCount(tools[..i])
    {
      var tool := tools[i];
      assert tools[..i + 1][..i] == tools[..i];
      ghost var prior := Entries(tools[..i]).value;
      var more;
      more, p := FlattenTool(tool, p);
      if more.Some? {
        FirstErrorIsReported(tools, i + 1);
        return Err(more.value), namespaces;
      }
      PlaceAllConcat(Start(tools), prior, ToolEntries(tool).value);
      if IsNamespace(tool) {
        namespaces := namespaces + 1;
      }
    }
    assert tools[..|tools|] == tools;
    r := Ok(p);
  }

  method FlattenTool(tool: Json, p0: Placement) returns (error: Option<Error>, p: Placement)
    ensures ToolEntries(tool).Err? ==> error == Some(ToolEntries(tool).error)
    ensures ToolEntries(tool).Ok? ==> error == None && p == PlaceAll(p0, ToolEntries(tool).value)
  {
    p := p0;
    if !tool.Obj? {
      return None, p;
    }
    if !IsNamespace(tool) {
      p := Placement(p.tools + [tool], p.tables);
      PlaceOne(p0, Top(tool));
      return None, p;
    }
    var ns := TextAt(tool.fields, "name");
    if ns == "" {
      return Some(UnnamedNamespace), p;
    }
    if !("tools" in tool.fields && tool.fields["tools"].Arr?) {
      return Some(ToolsNotAList(ns)), p;
    }
    error, p := FlattenChildren(ns, TextAt(tool.fields, "description"), tool.fields["tools"].items, p0);
  }

  lemma OneMoreChild(ns: string, description: string, children: seq<Json>, i: nat, p: Placement)
    requires i < |children| && ChildEntries(ns, description, children[..i]).Ok?
    ensures var done := ChildEntries(ns, description, children[..i]);
            var entry := ChildEntry(ns, description, children[i]);
            var more := ChildEntries(ns, description, children[..i + 1]);
            if entry.Err? then more == Err(entry.error)
            else more.Ok? && PlaceAll(p, more.value) == Place(PlaceAll(p, done.value), entry.value)
  {
    assert children[..i + 1][..i] == children[..i];
    var done, entry := ChildEntries(ns, description, children[..i]).value, ChildEntry(ns, description, children[i]);
    if entry.Ok? {
      assert (done + [entry.value])[..|done|] == done;
    }
  }

  method FlattenChildren(ns: string, description: string, children: seq<Json>, p0: Placement)
    returns (error: Option<Error>, p: Placement)
    ensures var entries := ChildEntries(ns, description, children);
            if entries.Err? then error == Some(entries.error) else error == None && p == PlaceAll(p0, entries.value)
  {
    p := p0;
    for i := 0 to |children|
      invariant ChildEntries(ns, description, children[..i]).Ok?
      invariant p == PlaceAll(p0, ChildEntries(ns, description, children[..i]).value)
    {
      var child := children[i];
      var entry := ChildEntry(ns, description, child);
      OneMoreChild(ns, description, children, i, p0);
      if entry.Err? {
        FirstChildErrorIsReported(ns, description, children, i + 1);
        return Some(entry.error), p;
      }
      var q := (ns, TextAt(child.fields, "name"));
      var alias, occupied := AllocateAlias(q, p.tables.occupied);
      assert Place(p, entry.value).tables == Allocated(q, p.tables);
      p := Placement(p.tools + [FlatChild(child.fields, description, alias)],
                     Tables(occupied, p.tables.aliases[q := alias], p.tables.reverse[alias := q]));
    }
    assert children[..|children|] == children;
    error := None;
  }

  lemma PlaceOne(p: Placement, e: Entry)
    ensures PlaceAll(p, [e]) == Place(p, e)
  {
    assert [e][..0] == [];
  }

  lemma {:induction false} FirstErrorIsReported(tools: seq<Json>, n: nat)
    requires n <= |tools| && Entries(tools[..n]).Err?
    ensures Entries(tools) == Entries(tools[..n])
  {
    if n < |tools| {
      assert tools[..|tools| - 1][..n] == tools[..n];
      FirstErrorIsReported(tools[..|tools| - 1], n);
    } else {
      assert tools[..n] == tools;
    }
  }

  lemma {:induction false} FirstChildErrorIsReported(ns: string, description: string, children: seq<Json>, n: nat)
    requires n <= |children| && ChildEntries(ns, description, children[..n]).Err?
    ensures ChildEntries(ns, description, children) == ChildEntries(ns, description, children[..n])
  {
    if n < |children| {
      assert children[..|children| - 1][..n] == children[..n];
      FirstChildErrorIsReported(ns, description, children[..|children| - 1], n);
    } else {
      assert children[..n] == children;
    }
  }

  /** The flattening is refused exactly when some namespace tool is malformed. */
  lemma {:induction false} RefusedExactlyWhenMalformed(tools: seq<Json>)
    ensures Entries(tools).Err? <==> exists i | 0 <= i < |tools| :: ToolEntries(tools[i]).Err?
    ensures Entries(tools).Err? ==>
              exists i | 0 <= i < |tools| :: Entries(tools) == ToolEntries(tools[i]) && Entries(tools[..i]).Ok?
  {
    if tools != [] {
      var n := |tools| - 1;
      var init := tools[..n];
      RefusedExactlyWhenMalformed(init);
      if Entries(init).Err? {
        var i :| 0 <= i < n && Entries(init) == ToolEntries(init[i]) && Entries(init[..i]).Ok?;
        assert init[..i] == tools[..i] && init[i] == tools[i];
      } else {
        assert forall i | 0 <= i < n :: tools[i] == init[i];
        assert Entries(tools).Err? <==> ToolEntries(tools[n]).Err?;
      }
    }
  }

  // ----- What the flattened list is -----

  predicate WellFormed(e: Entry) {
    if e.Top? then e.tool.Obj? && !IsNamespace(e.tool)
    else e.ns != "" && TypeIs(e.fields, "function") && TextAt(e.fields, "name") != ""
  }

  lemma {:induction false} ChildEntriesAreWellFormed(ns: string, description: string, children: seq<Json>)
    requires ns != "" && ChildEntries(ns, description, children).Ok?
    ensures forall e <- ChildEntries(ns, description, children).value :: WellFormed(e)
  {
    if children != [] {
      ChildEntriesAreWellFormed(ns, description, children[..|children| - 1]);
    }
  }

  lemma {:induction false} EntriesAreWellFormed(tools: seq<Json>)
    requires Entries(tools).Ok?
    ensures forall e <- Entries(tools).value :: WellFormed(e)
  {
    if tools != [] {
      EntriesAreWellFormed(tools[..|tools| - 1]);
      var tool := tools[|tools| - 1];
      if IsNamespace(tool) {
        ChildEntriesAreWellFormed(TextAt(tool.fields, "name"), TextAt(tool.fields, "description"),
            tool.fields["tools"].items);
      }
    }
  }

  /** The flat tool stands for the entry: same tool, or the child under an alias that leads back to it. */
  ghost predicate StandsFor(tool: Json, e: Entry, reverse: map<string, Qualified>) {
    match e
    case Top(t) => tool == t
    case Child(ns, _, f) =>
      && tool.Obj?
      && TextAt(tool.fields, "name") in reverse
      && reverse[TextAt(tool.fields, "name")] == (ns, TextAt(f, "name"))
      && "defer_loading" !in tool.fields
      && forall k | k !in {"name", "description", "defer_loading"} ::
           (k in tool.fields <==> k in f) && (k in f ==> tool.fields[k] == f[k])
  }

  lemma FlatChildStandsFor(e: Entry, alias: string, reverse: map<string, Qualified>)
    requires e.Child? && alias in reverse && reverse[alias] == (e.ns, TextAt(e.fields, "name"))
    ensures StandsFor(FlatChild(e.fields, e.description, alias), e, reverse)
    ensures TextAt(FlatChild(e.fields, e.description, alias).fields, "name") == alias
  {
  }

  function NameOf(tool: Json): string {
    if tool.Obj? then TextAt(tool.fields, "name") else ""
  }

  /** The names of the children seen so far are in the table, and no two agree. */
  ghost predicate ChildNamesDiffer(tools: seq<Json>, entries: seq<Entry>) {
    && |tools| == |entries|
    && forall i, j :: 0 <= i < j < |entries| && entries[i].Child? && entries[j].Child? ==>
          NameOf(tools[i]) != NameOf(tools[j])
  }

  ghost predicate AllStandFor(tools: seq<Json>, entries: seq<Entry>, reverse: map<string, Qualified>) {
    && |tools| == |entries|
    && forall i :: 0 <= i < |entries| ==> StandsFor(tools[i], entries[i], reverse)
  }

  lemma StandingSurvives(tools: seq<Json>, entries: seq<Entry>, t: Tables, t': Tables)
    requires AllStandFor(tools, entries, t.reverse) && Extends(t, t')
    ensures AllStandFor(tools, entries, t'.reverse)
  {
  }

  ghost predicate Faithful(p: Placement, entries: seq<Entry>, from: Tables, declared: set<string>) {
    && Sound(p.tables, declared)
    && Extends(from, p.tables)
    && AllStandFor(p.tools, entries, p.tables.reverse)
    && ChildNamesDiffer(p.tools, entries)
  }

  lemma NewAliasDiffers(p: Placement, entries: seq<Entry>, alias: string)
    requires AllStandFor(p.tools, entries, p.tables.reverse) && alias !in p.tables.reverse
    ensures forall i :: 0 <= i < |entries| && entries[i].Child? ==> NameOf(p.tools[i]) != alias
  {
    forall i | 0 <= i < |entries| && entries[i].Child?
      ensures NameOf(p.tools[i]) != alias
    {
      assert StandsFor(p.tools[i], entries[i], p.tables.reverse);
    }
  }

  lemma PlacingIsFaithful(p: Placement, entries: seq<Entry>, e: Entry, from: Tables, declared: set<string>)
    requires Faithful(p, entries, from, declared)
    ensures Faithful(Place(p, e), entries + [e], from, declared)
  {
    if e.Child? {
      var q := (e.ns, TextAt(e.fields, "name"));
      var alias := Alias(q, p.tables.occupied);
      AllocatedIsSound(q, p.tables, declared);
      StandingSurvives(p.tools, entries, p.tables, Allocated(q, p.tables));
      FlatChildStandsFor(e, alias, Allocated(q, p.tables).reverse);
      NewAliasDiffers(p, entries, alias);
    }
  }

  lemma {:induction false} PlaceAllIsFaithful(tables: Tables, entries: seq<Entry>, declared: set<string>)
    requires Sound(tables, declared)
    ensures Faithful(PlaceAll(Placement([], tables), entries), entries, tables, declared)
  {
    if entries != [] {
      var init, e := entries[..|entries| - 1], entries[|entries| - 1];
      PlaceAllIsFaithful(tables, init, declared);
      PlacingIsFaithful(PlaceAll(Placement([], tables), init), init, e, tables, declared);
      assert entries == init + [e];
    }
  }

  /** Every entry has its flat tool, in order; aliases are fresh, pairwise distinct and never a declared name. */
  lemma FlattenedListIsFaithful(tools: seq<Json>)
    requires Entries(tools).Ok?
    ensures var entries := Entries(tools).value; var p := PlaceAll(Start(tools), entries);
            && Sound(p.tables, Declared(tools))
            && AllStandFor(p.tools, entries, p.tables.reverse)
            && ChildNamesDiffer(p.tools, entries)
            && (forall i :: 0 <= i < |entries| && entries[i].Child? ==> NameOf(p.tools[i]) !in Declared(tools))
            && (forall tool <- p.tools :: tool.Obj? && !IsNamespace(tool))
  {
    var entries := Entries(tools).value;
    PlaceAllIsFaithful(Start(tools).tables, entries, Declared(tools));
    EntriesAreWellFormed(tools);
    var p := PlaceAll(Start(tools), entries);
    forall i | 0 <= i < |entries|
      ensures p.tools[i].Obj? && !IsNamespace(p.tools[i])
      ensures entries[i].Child? ==> NameOf(p.tools[i]) !in Declared(tools)
    {
      assert entries[i] in entries;
      assert StandsFor(p.tools[i], entries[i], p.tables.reverse);
    }
  }

  // ----- Calls in the request -----

  predicate IsNamespaced(f: Fields) {
    TextAt(f, "namespace") != "" && TextAt(f, "name") != ""
  }

  function QualifiedName(f: Fields): Qualified {
    (TextAt(f, "namespace"), TextAt(f, "name"))
  }

  function UnderAlias(f: Fields, alias: string): Fields {
    f["name" := Str(alias)] - {"namespace"}
  }

  predicate IsInputCall(item: Json) {
    && item.Obj? && IsNamespaced(item.fields)
    && (TypeIs(item.fields, "function_call") || TypeIs(item.fields, "custom_tool_call"))
  }

  datatype Rewriting = Rewriting(items: seq<Json>, tables: Tables)

  function RewriteItem(item: Json, t: Tables): (Json, Tables) {
    if IsInputCall(item) then
      var t' := Ensured(QualifiedName(item.fields), t);
      (Obj(UnderAlias(item.fields, t'.aliases[QualifiedName(item.fields)])), t')
    else (item, t)
  }

  function RewriteInput(items: seq<Json>, t: Tables): Rewriting {
    if items == [] then Rewriting([], t)
    else
      var before := RewriteInput(items[..|items| - 1], t);
      var last := RewriteItem(items[|items| - 1], before.tables);
      Rewriting(before.items + [last.0], last.1)
  }

  method RewriteInputs(items: seq<Json>, t0: Tables) returns (r: seq<Json>, t: Tables)
    ensures Rewriting(r, t) == RewriteInput(items, t0)
  {
    r, t := [], t0;
    for i := 0 to |items|
      invariant Rewriting(r, t) == RewriteInput(items[..i], t0)
    {
      var item := items[i];
      assert items[..i + 1][..i] == items[..i];
      if IsInputCall(item) {
        var q := QualifiedName(item.fields);
        if q !in t.aliases {
          var alias, occupied := AllocateAlias(q, t.occupied);
          t := Tables(occupied, t.aliases[q := alias], t.reverse[alias := q]);
        }
        r := r + [Obj(UnderAlias(item.fields, t.aliases[q]))];
      } else {
        r := r + [item];
      }
    }
    assert items[..|items|] == items;
  }

  function RewriteChoice(choice: Json, t: Tables): (Json, Tables) {
    if choice.Obj? && IsNamespaced(choice.fields) then
      var t' := Ensured(QualifiedName(choice.fields), t);
      (Obj(UnderAlias(choice.fields, t'.aliases[QualifiedName(choice.fields)])), t')
    else (choice, t)
  }

  lemma EnsuredIsSound(q: Qualified, t: Tables, declared: set<string>)
    requires Sound(t, declared)
    ensures var t' := Ensured(q, t);
            && Sound(t', declared) && Extends(t, t')
            && t'.aliases[q] in t'.reverse && t'.reverse[t'.aliases[q]] == q
  {
    if q !in t.aliases {
      AllocatedIsSound(q, t, declared);
    }
  }

  lemma ChoiceLeadsBack(choice: Json, t: Tables, declared: set<string>)
    requires Sound(t, declared) && choice.Obj? && IsNamespaced(choice.fields)
    ensures var (choice', t') := RewriteChoice(choice, t);
            && Sound(t', declared) && Extends(t, t')
            && choice'.Obj? && "namespace" !in choice'.fields
            && NameOf(choice') in t'.reverse && t'.reverse[NameOf(choice')] == QualifiedName(choice.fields)
  {
    EnsuredIsSound(QualifiedName(choice.fields), t, declared);
  }

  // ----- The whole request -----

  datatype Flat = Flat(payload: Fields, reverse: map<string, Qualified>, namespaces: nat)

  predicate HasList(payload: Fields, key: string) {
    key in payload && payload[key].Arr?
  }

  function RewriteInputField(payload: Fields, t: Tables): (Fields, Tables) {
    if HasList(payload, "input") then
      var r := RewriteInput(payload["input"].items, t);
      (payload["input" := Arr(r.items)], r.tables)
    else (payload, t)
  }

  function RewriteChoiceField(payload: Fields, t: Tables): (Fields, Tables) {
    if "tool_choice" in payload then
      var r := RewriteChoice(payload["tool_choice"], t);
      (payload["tool_choice" := r.0], r.1)
    else (payload, t)
  }

  function RewriteRest(payload: Fields, p: Placement): (Fields, Tables) {
    var r := RewriteInputField(payload["tools" := Arr(p.tools)], p.tables);
    RewriteChoiceField(r.0, r.1)
  }

  function Flatten(payload: Fields): Result<Flat> {
    if !HasList(payload, "tools") then Ok(Flat(payload, map[], 0))
    else
      var tools := payload["tools"].items;
      var entries := Entries(tools);
      if entries.Err? then Err(entries.error)
      else
        var p := PlaceAll(Start(tools), entries.value);
        if p.tables.reverse == map[] then Ok(Flat(payload, map[], 0))
        else
          var rest := RewriteRest(payload, p);
          Ok(Flat(rest.0, rest.1.reverse, NamespaceCount(tools)))
  }

  method FlattenRequest(payload: Fields) returns (r: Result<Flat>)
    ensures r == Flatten(payload)
  {
    if !HasList(payload, "tools") {
      return Ok(Flat(payload, map[], 0));
    }
    var placed, namespaces := FlattenTools(payload["tools"].items);
    if placed.Err? {
      return Err(placed.error);
    }
    var tables := placed.value.tables;
    if tables.reverse == map[] {
      return Ok(Flat(payload, map[], 0));
    }
    var flat := payload["tools" := Arr(placed.value.tools)];
    if HasList(flat, "input") {
      var items;
      items, tables := RewriteInputs(flat["input"].items, tables);
      flat := flat["input" := Arr(items)];
    }
    if "tool_choice" in flat && flat["tool_choice"].Obj? && IsNamespaced(flat["tool_choice"].fields) {
      var choice := flat["tool_choice"].fields;
      var q := QualifiedName(choice);
      if q !in tables.aliases {
        var alias, occupied := AllocateAlias(q, tables.occupied);
        tables := Tables(occupied, tables.aliases[q := alias], tables.reverse[alias := q]);
      }
      flat := flat["tool_choice" := Obj(UnderAlias(choice, tables.aliases[q]))];
    } else if "tool_choice" in flat {
      assert flat["tool_choice" := flat["tool_choice"]] == flat;
    }
    r := Ok(Flat(flat, tables.reverse, namespaces));
  }

  // ----- Restoring the response -----

  predicate Contains(s: string, part: string) {
    part <= s || (s != "" && Contains(s[1..], part))
  }

  predicate IsCallKind(kind: string) {
    Contains(kind, "function_call") || Contains(kind, "custom_tool_call")
  }

  /** A call whose name is one of the aliases. */
  predicate IsAliasCall(f: Fields, reverse: map<string, Qualified>) {
    && StringAt(f, "name").Some?
    && TextAt(f, "name") in reverse
    && IsCallKind(TextAt(f, "type"))
  }

  /** The fields the visitor descends into; the two it overwrites hold plain strings by then. */
  function Descended(f: Fields, reverse: map<string, Qualified>): set<string> {
    if IsAliasCall(f, reverse) then f.Keys - {"name", "namespace"} else f.Keys
  }

  function NamedBack(f: Fields, reverse: map<string, Qualified>): Fields {
    if IsAliasCall(f, reverse) then
      var q := reverse[TextAt(f, "name")];
      f["name" := Str(q.1)]["namespace" := Str(q.0)]
    else f
  }

  function Restored(v: Json, reverse: map<string, Qualified>): Json {
    match v
    case Arr(items) => Arr(seq(|items|, i requires 0 <= i < |items| => Restored(items[i], reverse)))
    case Obj(f) =>
      var g := NamedBack(f, reverse);
      Obj(map k | k in g.Keys :: if k in Descended(f, reverse) then Restored(f[k], reverse) else g[k])
    case _ => v
  }

  ghost function Sum(keys: set<string>, counts: map<string, nat>): nat
    requires keys <= counts.Keys
  {
    if keys == {} then 0 else var k :| k in keys; counts[k] + Sum(keys - {k}, counts)
  }

  /** The visitor's counter. */
  ghost function RestoredCount(v: Json, reverse: map<string, Qualified>): nat {
    match v
    case Arr(items) => CountAll(items, reverse)
    case Obj(f) =>
      (if IsAliasCall(f, reverse) then 1 else 0)
      + Sum(Descended(f, reverse), map k | k in f.Keys :: RestoredCount(f[k], reverse))
    case _ => 0
  }

  ghost function CountAll(items: seq<Json>, reverse: map<string, Qualified>): nat {
    if items == [] then 0
    else RestoredCount(items[0], reverse) + CountAll(items[1..], reverse)
  }

  /** No call anywhere in the value carries an alias. */
  ghost predicate Untouched(v: Json, reverse: map<string, Qualified>) {
    match v
    case Arr(items) => forall i :: 0 <= i < |items| ==> Untouched(items[i], reverse)
    case Obj(f) => !IsAliasCall(f, reverse) && forall k <- f :: Untouched(f[k], reverse)
    case _ => true
  }

  lemma {:induction false} SumIsZero(keys: set<string>, counts: map<string, nat>)
    requires keys <= counts.Keys
    ensures Sum(keys, counts) == 0 <==> forall k <- keys :: counts[k] == 0
  {
    if keys != {} {
      var k :| k in keys && Sum(keys, counts) == counts[k] + Sum(keys - {k}, counts);
      SumIsZero(keys - {k}, counts);
      assert keys == (keys - {k}) + {k};
    }
  }

  lemma {:induction false} CountIsZero(v: Json, reverse: map<string, Qualified>)
    ensures RestoredCount(v, reverse) == 0 <==> Untouched(v, reverse)
  {
    match v
    case Arr(items) =>
      CountAllIsZero(items, reverse);
    case Obj(f) =>
      if !IsAliasCall(f, reverse) {
        var counts := map k | k in f.Keys :: RestoredCount(f[k], reverse);
        forall k | k in f
          ensures counts[k] == 0 <==> Untouched(f[k], reverse)
        {
          CountIsZero(f[k], reverse);
        }
        SumIsZero(f.Keys, counts);
      }
    case _ =>
  }

  lemma {:induction false} CountAllIsZero(items: seq<Json>, reverse: map<string, Qualified>)
    ensures CountAll(items, reverse) == 0 <==> forall i :: 0 <= i < |items| ==> Untouched(items[i], reverse)
  {
    if items != [] {
      CountIsZero(items[0], reverse);
      CountAllIsZero(items[1..], reverse);
      assert items == [items[0]] + items[1..];
    }
  }

  /** Naming back changes the name of a call, so a value survives exactly when it holds no call under an alias. */
  lemma {:induction false} UnchangedExactlyWhenUntouched(v: Json, reverse: map<string, Qualified>)
    requires Longer(reverse)
    ensures Restored(v, reverse) == v <==> Untouched(v, reverse)
  {
    match v
    case Arr(items) =>
      forall i | 0 <= i < |items|
        ensures Restored(items[i], reverse) == items[i] <==> Untouched(items[i], reverse)
      {
        UnchangedExactlyWhenUntouched(items[i], reverse);
      }
      var r := Restored(v, reverse).items;
      assert r == items <==> forall i :: 0 <= i < |items| ==> r[i] == items[i];
    case Obj(f) =>
      var r := Restored(v, reverse).fields;
      if IsAliasCall(f, reverse) {
        assert r["name"] != f["name"];
      } else {
        forall k | k in f
          ensures Restored(f[k], reverse) == f[k] <==> Untouched(f[k], reverse)
        {
          UnchangedExactlyWhenUntouched(f[k], reverse);
        }
        assert r == f <==> forall k <- f :: r[k] == f[k];
      }
    case _ =>
  }

  /** The counter is zero exactly when the response is unchanged. */
  lemma CounterTellsChange(v: Json, t: Tables, declared: set<string>)
    requires Sound(t, declared)
    ensures RestoredCount(v, t.reverse) == 0 <==> Restored(v, t.reverse) == v
  {
    CountIsZero(v, t.reverse);
    UnchangedExactlyWhenUntouched(v, t.reverse);
  }

  // ----- Round trips -----

  /** A call that names a namespaced function the tables know. */
  predicate IsKnownCall(f: Fields, aliases: map<Qualified, string>) {
    && StringAt(f, "namespace").Some?
    && StringAt(f, "name").Some?
    && QualifiedName(f) in aliases
    && IsCallKind(TextAt(f, "type"))
  }

  /** The value as a model that only knows the aliases writes it: calls at any depth are under their alias. */
  function Aliased(v: Json, aliases: map<Qualified, string>): Json {
    match v
    case Arr(items) => Arr(seq(|items|, i requires 0 <= i < |items| => Aliased(items[i], aliases)))
    case Obj(f) =>
      if IsKnownCall(f, aliases) then
        var g := UnderAlias(f, aliases[QualifiedName(f)]);
        Obj(map k | k in g.Keys :: if k == "name" then g[k] else Aliased(f[k], aliases))
      else Obj(map k | k in f.Keys :: Aliased(f[k], aliases))
    case _ => v
  }

  /** Outside the known calls, no call already carries an alias for its name. */
  ghost predicate Unambiguous(v: Json, t: Tables) {
    match v
    case Arr(items) => forall i :: 0 <= i < |items| ==> Unambiguous(items[i], t)
    case Obj(f) =>
      if IsKnownCall(f, t.aliases) then forall k <- f.Keys - {"name", "namespace"} :: Unambiguous(f[k], t)
      else !IsAliasCall(f, t.reverse) && forall k <- f :: Unambiguous(f[k], t)
    case _ => true
  }

  lemma AliasedKeepsStrings(v: Json, aliases: map<Qualified, string>)
    ensures Aliased(v, aliases).Str? <==> v.Str?
    ensures v.Str? ==> Aliased(v, aliases) == v
  {
  }

  lemma AliasedFieldsReadTheSame(f: Fields, aliases: map<Qualified, string>, key: string)
    requires !IsKnownCall(f, aliases)
    ensures StringAt(Aliased(Obj(f), aliases).fields, key) == StringAt(f, key)
  {
    if key in f {
      AliasedKeepsStrings(f[key], aliases);
    }
  }

  lemma KnownCallComesBack(f: Fields, t: Tables, declared: set<string>)
    requires Sound(t, declared) && IsKnownCall(f, t.aliases)
    ensures var g := Aliased(Obj(f), t.aliases).fields;
            && IsAliasCall(g, t.reverse)
            && AliasTarget(t, g) == QualifiedName(f)
            && g.Keys == f.Keys - {"namespace"}
            && Descended(g, t.reverse) == f.Keys - {"name", "namespace"}
  {
    if "type" in f {
      AliasedKeepsStrings(f["type"], t.aliases);
    }
  }

  function AliasTarget(t: Tables, g: Fields): Qualified
    requires TextAt(g, "name") in t.reverse
  {
    t.reverse[TextAt(g, "name")]
  }

  ghost predicate ComesBack(v: Json, t: Tables) {
    Restored(Aliased(v, t.aliases), t.reverse) == v
  }

  lemma KnownCallFields(f: Fields, t: Tables, declared: set<string>)
    requires Sound(t, declared) && IsKnownCall(f, t.aliases)
    ensures var r := Restored(Aliased(Obj(f), t.aliases), t.reverse).fields;
            && r.Keys == f.Keys && r["name"] == f["name"] && r["namespace"] == f["namespace"]
            && forall k <- f.Keys - {"name", "namespace"} :: r[k] == Restored(Aliased(f[k], t.aliases), t.reverse)
  {
    KnownCallComesBack(f, t, declared);
  }

  lemma KnownCallRoundTrip(f: Fields, t: Tables, declared: set<string>)
    requires Sound(t, declared) && IsKnownCall(f, t.aliases)
    ensures ComesBack(Obj(f), t) <==> forall k <- f.Keys - {"name", "namespace"} :: ComesBack(f[k], t)
  {
    KnownCallFields(f, t, declared);
    var r := Restored(Aliased(Obj(f), t.aliases), t.reverse).fields;
    assert r == f <==> forall k <- f.Keys - {"name", "namespace"} :: r[k] == f[k];
  }

  lemma OtherObjectRoundTrip(f: Fields, t: Tables, declared: set<string>)
    requires Sound(t, declared) && !IsKnownCall(f, t.aliases)
    ensures ComesBack(Obj(f), t) <==> !IsAliasCall(f, t.reverse) && forall k <- f :: ComesBack(f[k], t)
  {
    AliasedFieldsReadTheSame(f, t.aliases, "name");
    AliasedFieldsReadTheSame(f, t.aliases, "type");
    var r := Restored(Aliased(Obj(f), t.aliases), t.reverse).fields;
    if IsAliasCall(f, t.reverse) {
      assert r["name"] != f["name"];
    } else {
      assert r.Keys == f.Keys;
      assert r == f <==> forall k <- f :: r[k] == f[k];
    }
  }

  lemma ListRoundTrip(items: seq<Json>, t: Tables)
    ensures ComesBack(Arr(items), t) <==> forall i :: 0 <= i < |items| ==> ComesBack(items[i], t)
  {
    var r := Restored(Aliased(Arr(items), t.aliases), t.reverse).items;
    assert r == items <==> forall i :: 0 <= i < |items| ==> r[i] == items[i];
  }

  /** Naming back undoes aliasing at every depth, exactly when no other call carries an alias. */
  lemma {:induction false} RestoringUndoesAliasing(v: Json, t: Tables, declared: set<string>)
    requires Sound(t, declared)
    ensures Restored(Aliased(v, t.aliases), t.reverse) == v <==> Unambiguous(v, t)
  {
    match v
    case Arr(items) =>
      forall i | 0 <= i < |items|
        ensures ComesBack(items[i], t) <==> Unambiguous(items[i], t)
      {
        RestoringUndoesAliasing(items[i], t, declared);
      }
      ListRoundTrip(items, t);
    case Obj(f) =>
      forall k | k in f
        ensures ComesBack(f[k], t) <==> Unambiguous(f[k], t)
      {
        RestoringUndoesAliasing(f[k], t, declared);
      }
      if IsKnownCall(f, t.aliases) {
        KnownCallRoundTrip(f, t, declared);
      } else {
        OtherObjectRoundTrip(f, t, declared);
      }
    case _ =>
  }

  function PlainCall(name: string): Fields {
    map["type" := Str("function_call"), "name" := Str(name)]
  }

  lemma PlainCallReads(name: string)
    ensures TextAt(PlainCall(name), "name") == name && StringAt(PlainCall(name), "name").Some?
    ensures StringAt(PlainCall(name), "namespace").None? && IsCallKind(TextAt(PlainCall(name), "type"))
  {
    KindsContainThemselves();
    assert "namespace" !in PlainCall(name);
    assert TextAt(PlainCall(name), "type") == "function_call";
  }

  lemma PlainCallIsNotAliased(name: string, aliases: map<Qualified, string>)
    ensures Aliased(Obj(PlainCall(name)), aliases) == Obj(PlainCall(name))
  {
    PlainCallReads(name);
    var f := PlainCall(name);
    assert !IsKnownCall(f, aliases);
    assert (map k | k in f.Keys :: Aliased(f[k], aliases)) == f;
  }

  /** What the condition guards against: a plain call that happens to use an alias comes back as a namespaced one. */
  lemma PlainCallUnderAliasIsClaimed(t: Tables, declared: set<string>, alias: string)
    requires Sound(t, declared) && alias in t.reverse
    ensures var v := Obj(PlainCall(alias));
            && Aliased(v, t.aliases) == v
            && Restored(v, t.reverse) != v
            && QualifiedName(Restored(v, t.reverse).fields) == t.reverse[alias]
  {
    PlainCallReads(alias);
    PlainCallIsNotAliased(alias, t.aliases);
    AliasCallIsNamed(PlainCall(alias), t.reverse);
    assert !Untouched(Obj(PlainCall(alias)), t.reverse);
    UnchangedExactlyWhenUntouched(Obj(PlainCall(alias)), t.reverse);
  }

  /** A call under an alias gets back its namespace and name; its other plain fields stay. */
  lemma AliasCallIsNamed(f: Fields, reverse: map<string, Qualified>)
    requires IsAliasCall(f, reverse)
    ensures var r := Restored(Obj(f), reverse).fields;
            && QualifiedName(r) == reverse[TextAt(f, "name")]
            && r.Keys == f.Keys + {"namespace"}
            && forall k <- f.Keys - {"name", "namespace"} :: r[k] == Restored(f[k], reverse)
  {
  }

  /** Every call in the value is to a declared top-level tool. */
  ghost predicate OnlyDeclaredCalls(v: Json, declared: set<string>) {
    match v
    case Arr(items) => forall i :: 0 <= i < |items| ==> OnlyDeclaredCalls(items[i], declared)
    case Obj(f) =>
      && (IsCallKind(TextAt(f, "type")) ==> TextAt(f, "name") in declared)
      && forall k <- f :: OnlyDeclaredCalls(f[k], declared)
    case _ => true
  }

  lemma {:induction false} DeclaredCallsAreUntouched(v: Json, t: Tables, declared: set<string>)
    requires Sound(t, declared) && OnlyDeclaredCalls(v, declared)
    ensures Untouched(v, t.reverse) && Restored(v, t.reverse) == v
  {
    UnchangedExactlyWhenUntouched(v, t.reverse);
    match v
    case Arr(items) =>
      forall i | 0 <= i < |items|
        ensures Untouched(items[i], t.reverse)
      {
        DeclaredCallsAreUntouched(items[i], t, declared);
      }
    case Obj(f) =>
      forall k | k in f
        ensures Untouched(f[k], t.reverse)
      {
        DeclaredCallsAreUntouched(f[k], t, declared);
      }
    case _ =>
  }

  // ----- The request's own calls come back -----

  /** An input item whose only alias, if any, is the one it was given. */
  ghost predicate Plain(item: Json, reverse: map<string, Qualified>) {
    if IsInputCall(item) then forall k <- item.fields.Keys - {"name", "namespace"} :: Untouched(item.fields[k], reverse)
    else Untouched(item, reverse)
  }

  lemma KindsContainThemselves()
    ensures IsCallKind("function_call") && IsCallKind("custom_tool_call")
  {
    assert Contains("function_call", "function_call");
    assert Contains("custom_tool_call", "custom_tool_call");
  }

  lemma UnderAliasIsAliasCall(f: Fields, alias: string, reverse: map<string, Qualified>)
    requires IsInputCall(Obj(f)) && alias in reverse
    ensures var g := UnderAlias(f, alias);
            && IsAliasCall(g, reverse)
            && Descended(g, reverse) == f.Keys - {"name", "namespace"}
  {
    KindsContainThemselves();
    assert TextAt(UnderAlias(f, alias), "type") == TextAt(f, "type");
    assert TextAt(UnderAlias(f, alias), "name") == alias;
  }

  lemma AliasCallIsNamedBack(f: Fields, alias: string, reverse: map<string, Qualified>)
    requires IsNamespaced(f) && alias in reverse && reverse[alias] == QualifiedName(f)
    requires IsAliasCall(UnderAlias(f, alias), reverse)
    ensures NamedBack(UnderAlias(f, alias), reverse) == f
  {
    assert TextAt(UnderAlias(f, alias), "name") == alias;
  }

  lemma RewrittenCallIsNamedBack(f: Fields, alias: string, reverse: map<string, Qualified>)
    requires IsInputCall(Obj(f)) && alias in reverse && reverse[alias] == QualifiedName(f)
    ensures var r := Restored(Obj(UnderAlias(f, alias)), reverse).fields;
            && r.Keys == f.Keys && r["name"] == f["name"] && r["namespace"] == f["namespace"]
            && forall k <- f.Keys - {"name", "namespace"} :: r[k] == Restored(f[k], reverse)
  {
    UnderAliasIsAliasCall(f, alias, reverse);
    AliasCallIsNamedBack(f, alias, reverse);
  }

  lemma RewrittenCallComesBack(f: Fields, alias: string, reverse: map<string, Qualified>)
    requires Longer(reverse) && IsInputCall(Obj(f)) && alias in reverse && reverse[alias] == QualifiedName(f)
    ensures Restored(Obj(UnderAlias(f, alias)), reverse) == Obj(f) <==> Plain(Obj(f), reverse)
  {
    RewrittenCallIsNamedBack(f, alias, reverse);
    var r := Restored(Obj(UnderAlias(f, alias)), reverse).fields;
    forall k | k in f.Keys - {"name", "namespace"}
      ensures r[k] == f[k] <==> Untouched(f[k], reverse)
    {
      UnchangedExactlyWhenUntouched(f[k], reverse);
    }
    assert r == f <==> forall k <- f.Keys - {"name", "namespace"} :: r[k] == f[k];
  }

  /** Under any tables that extend the ones it was rewritten with, the item comes back exactly when it is plain. */
  ghost predicate ItemComesBack(item: Json, flat: Json, reverse: map<string, Qualified>) {
    Restored(flat, reverse) == item <==> Plain(item, reverse)
  }

  lemma RewrittenItemComesBack(item: Json, t: Tables, declared: set<string>, later: Tables)
    requires Sound(t, declared) && Sound(later, declared) && Extends(RewriteItem(item, t).1, later)
    ensures ItemComesBack(item, RewriteItem(item, t).0, later.reverse)
  {
    if IsInputCall(item) {
      var q := QualifiedName(item.fields);
      EnsuredIsSound(q, t, declared);
      RewrittenCallComesBack(item.fields, Ensured(q, t).aliases[q], later.reverse);
    } else {
      UnchangedExactlyWhenUntouched(item, later.reverse);
    }
  }

  lemma ExtendsIsTransitive(a: Tables, b: Tables, c: Tables)
    requires Extends(a, b) && Extends(b, c)
    ensures Extends(a, c)
  {
    forall x | x in a.reverse
      ensures c.reverse[x] == a.reverse[x]
    {
      assert x in b.reverse.Keys && b.reverse[x] == a.reverse[x];
    }
  }

  lemma RewritingItemIsSound(item: Json, t: Tables, declared: set<string>)
    requires Sound(t, declared)
    ensures Sound(RewriteItem(item, t).1, declared) && Extends(t, RewriteItem(item, t).1)
  {
    if IsInputCall(item) {
      EnsuredIsSound(QualifiedName(item.fields), t, declared);
    }
  }

  lemma {:induction false} RewritingIsSound(items: seq<Json>, t: Tables, declared: set<string>)
    requires Sound(t, declared)
    ensures Sound(RewriteInput(items, t).tables, declared) && Extends(t, RewriteInput(items, t).tables)
  {
    if items != [] {
      var before := RewriteInput(items[..|items| - 1], t).tables;
      RewritingIsSound(items[..|items| - 1], t, declared);
      RewritingItemIsSound(items[|items| - 1], before, declared);
      ExtendsIsTransitive(t, before, RewriteInput(items, t).tables);
    }
  }

  ghost predicate AllComeBack(items: seq<Json>, flat: seq<Json>, reverse: map<string, Qualified>) {
    |flat| == |items| && forall i :: 0 <= i < |items| ==> ItemComesBack(items[i], flat[i], reverse)
  }

  lemma OneMoreComesBack(items: seq<Json>, flat: seq<Json>, item: Json, flatItem: Json, reverse: map<string, Qualified>)
    requires AllComeBack(items, flat, reverse) && ItemComesBack(item, flatItem, reverse)
    ensures AllComeBack(items + [item], flat + [flatItem], reverse)
  {
  }

  lemma {:induction false} RewrittenInputComesBack(items: seq<Json>, t: Tables, declared: set<string>, later: Tables)
    requires Sound(t, declared) && Sound(later, declared) && Extends(RewriteInput(items, t).tables, later)
    ensures AllComeBack(items, RewriteInput(items, t).items, later.reverse)
  {
    if items != [] {
      var init, item := items[..|items| - 1], items[|items| - 1];
      assert items == init + [item];
      var before := RewriteInput(init, t).tables;
      RewritingIsSound(init, t, declared);
      RewritingItemIsSound(item, before, declared);
      ExtendsIsTransitive(before, RewriteItem(item, before).1, later);
      RewrittenInputComesBack(init, t, declared, later);
      RewrittenItemComesBack(item, before, declared, later);
      OneMoreComesBack(init, RewriteInput(init, t).items, item, RewriteItem(item, before).0, later.reverse);
    }
  }

  lemma ChoiceFieldIsSound(payload: Fields, t: Tables, declared: set<string>)
    requires Sound(t, declared)
    ensures var r := RewriteChoiceField(payload, t);
            && Sound(r.1, declared) && Extends(t, r.1)
            && r.0.Keys == payload.Keys
            && forall k <- payload.Keys - {"tool_choice"} :: r.0[k] == payload[k]
  {
    if "tool_choice" in payload && payload["tool_choice"].Obj? && IsNamespaced(payload["tool_choice"].fields) {
      ChoiceLeadsBack(payload["tool_choice"], t, declared);
    }
  }

  lemma RestIsSound(payload: Fields, p: Placement, declared: set<string>)
    requires Sound(p.tables, declared) && HasList(payload, "input")
    ensures var rest := RewriteRest(payload, p); var r := RewriteInput(payload["input"].items, p.tables);
            && Sound(rest.1, declared) && Extends(r.tables, rest.1)
            && HasList(rest.0, "input") && rest.0["input"] == Arr(r.items)
  {
    RewritingIsSound(payload["input"].items, p.tables, declared);
    var r := RewriteInputField(payload["tools" := Arr(p.tools)], p.tables);
    ChoiceFieldIsSound(r.0, r.1, declared);
  }

  lemma {:induction false} EmptyTableTouchesNothing(v: Json)
    ensures Untouched(v, map[])
  {
    match v
    case Arr(items) =>
      forall i | 0 <= i < |items|
        ensures Untouched(items[i], map[])
      {
        EmptyTableTouchesNothing(items[i]);
      }
    case Obj(f) =>
      forall k | k in f
        ensures Untouched(f[k], map[])
      {
        EmptyTableTouchesNothing(f[k]);
      }
    case _ =>
  }

  lemma ListComesBackItemwise(items: seq<Json>, flat: seq<Json>, reverse: map<string, Qualified>)
    requires AllComeBack(items, flat, reverse)
    ensures Restored(Arr(flat), reverse) == Arr(items) <==> forall i :: 0 <= i < |items| ==> Plain(items[i], reverse)
  {
    var r := Restored(Arr(flat), reverse).items;
    forall i | 0 <= i < |items|
      ensures r[i] == items[i] <==> Plain(items[i], reverse)
    {
      assert ItemComesBack(items[i], flat[i], reverse);
    }
    assert r == items <==> forall i :: 0 <= i < |items| ==> r[i] == items[i];
  }

  /** Flattening a request and naming its own calls back gives the input list, exactly when every item is plain. */
  lemma RequestRoundTrip(payload: Fields)
    requires Flatten(payload).Ok? && HasList(payload, "input")
    ensures var flat := Flatten(payload).value; var items := payload["input"].items;
            && HasList(flat.payload, "input")
            && (Restored(flat.payload["input"], flat.reverse) == payload["input"] <==>
                forall i :: 0 <= i < |items| ==> Plain(items[i], flat.reverse))
  {
    var flat, items := Flatten(payload).value, payload["input"].items;
    var tools := if HasList(payload, "tools") then payload["tools"].items else [];
    var p := PlaceAll(Start(tools), Entries(tools).value);
    if !HasList(payload, "tools") || p.tables.reverse == map[] {
      forall v: Json
        ensures Untouched(v, map[])
      {
        EmptyTableTouchesNothing(v);
      }
      assert Longer(map[]);
      UnchangedExactlyWhenUntouched(payload["input"], map[]);
    } else {
      FlattenedListIsFaithful(tools);
      RestIsSound(payload, p, Declared(tools));
      RewrittenInputComesBack(items, p.tables, Declared(tools), RewriteRest(payload, p).1);
      ListComesBackItemwise(items, flat.payload["input"].items, flat.reverse);
    }
  }
}
