/**
 A config file the service writes and then refuses: the rewrite of an empty file for a model whose name looks like a
 key, worked out in full, with a library that prints and reads it.
 */
module ConfigExample {
  import opened Options
  import opened Text
  import opened ConfigTree

  function Section(key: string, value: Yaml): Fields { map[key := value] }

  function ModelSection(provider: string, model: string): Fields {
    Section("provider", Str(provider))["default" := Str(model)]
  }

  function Limits(): Fields {
    Section("exact_failure", Num(5.0))["idempotent_no_progress" := Num(5.0)]
  }

  function Telegram(): Fields {
    Section("enabled", Bool(true))["allow_all_users" := Bool(false)]["unauthorized_dm_behavior" := Str("ignore")]
  }

  function Platforms(): Fields {
    Section("api_server", Rec(Section("enabled", Bool(true))))["telegram" := Rec(Telegram())]
  }

  function Head(provider: string, model: string): Fields {
    Section("_config_version", Num(12.0))["model" := Rec(ModelSection(provider, model))]
  }

  /** What the rewrite makes of nothing. */
  function Tree(provider: string, model: string): Fields {
    Tools(Head(provider, model))[GUARDRAILS := Rec(Guardrails())]["platforms" := Rec(Platforms())]
  }

  lemma Set2(m: Fields, key: string, inner: string, value: Yaml)
    ensures SetPath(m, [key, inner], value) == m[key := Rec(SubRecord(m, key)[inner := value])]
  {
    var path: Path := [key, inner];
    assert path[1..] == [inner];
  }

  lemma Set3(m: Fields, key: string, inner: string, last: string, value: Yaml)
    ensures SetPath(m, [key, inner, last], value)
         == m[key := Rec(SubRecord(m, key)[inner := Rec(SubRecord(SubRecord(m, key), inner)[last := value])])]
  {
    var path: Path := [key, inner, last];
    assert path[1..] == [inner, last];
    Set2(SubRecord(m, key), inner, last, value);
  }

  lemma {:induction false} DeleteAbsent(m: Fields, path: Path)
    requires Get(m, path).None?
    ensures DeletePath(m, path) == m
    decreases |path|
  {
    if |path| > 1 && path[0] in m && m[path[0]].Rec? {
      DeleteAbsent(m[path[0]].fields, path[1..]);
    }
  }

  lemma InTurn(m: Fields, a: Edit, b: Edit, c: Edit)
    ensures ApplyAll(m, [a, b, c]) == Apply(Apply(Apply(m, a), b), c)
  {
    assert [a, b, c][..2] == [a, b] && [a, b][..1] == [a] && [a][..0] == [];
    assert ApplyAll(m, [a]) == Apply(m, a);
    assert ApplyAll(m, [a, b]) == Apply(Apply(m, a), b);
  }

  lemma {:induction false} DeletesDoNothing(m: Fields, edits: seq<Edit>)
    requires forall e :: e in edits ==> e.Delete? && Get(m, e.path).None?
    ensures ApplyAll(m, edits) == m
  {
    if edits != [] {
      var n := |edits| - 1;
      DeletesDoNothing(m, edits[..n]);
      assert edits[n] in edits;
      DeleteAbsent(m, edits[n].path);
    }
  }

  lemma HeadOfNothing(provider: string, model: string)
    ensures ApplyAll(map[], ModelEdits(provider, model)) == Head(provider, model)
  {
    var es := ModelEdits(provider, model);
    InTurn(map[], es[0], es[1], es[2]);
    var first := Section("_config_version", Num(12.0));
    var second := first["model" := Rec(Section("provider", Str(provider)))];
    assert Apply(map[], es[0]) == first;
    Set2(first, "model", "provider", Str(provider));
    Set2(second, "model", "default", Str(model));
    HeadHasNoKey(provider, model);
    assert es == [es[0], es[1], es[2]] + [es[3]];
    ApplyAllConcat(map[], [es[0], es[1], es[2]], [es[3]]);
  }

  lemma HeadHasNoKey(provider: string, model: string)
    ensures ApplyAll(Head(provider, model), [Delete(["model", "api_key"])]) == Head(provider, model)
  {
    var e := Delete(["model", "api_key"]);
    assert e.path[1..] == ["api_key"];
    DeletesDoNothing(Head(provider, model), [e]);
  }

  function Tools(m: Fields): Fields {
    var terminal := Section("backend", Str("local"))["cwd" := Str("/workspace")];
    m["terminal" := Rec(terminal)]["browser" := Rec(Section("enabled", Bool(false)))]
  }

  const GUARDRAILS := "tool_loop_guardrails"
  const HARD_STOP := "hard_stop_after"

  lemma ToolsAdded(m: Fields)
    requires "terminal" !in m && "browser" !in m
    ensures ApplyAll(m, TOOL_EDITS[..3]) == Tools(m)
  {
    var es := TOOL_EDITS;
    assert es[..3] == [es[0], es[1], es[2]];
    InTurn(m, es[0], es[1], es[2]);
    Set2(m, "terminal", "backend", Str("local"));
    var first := m["terminal" := Rec(Section("backend", Str("local")))];
    Set2(first, "terminal", "cwd", Str("/workspace"));
    var second := m["terminal" := Rec(Section("backend", Str("local"))["cwd" := Str("/workspace")])];
    Set2(second, "browser", "enabled", Bool(false));
  }

  /** One more entry in a section of a section. */
  lemma DeepWithin(m: Fields, key: string, f: Fields, inner: string, g: Fields, last: string, value: Yaml)
    ensures SetPath(m[key := Rec(f[inner := Rec(g)])], [key, inner, last], value)
         == m[key := Rec(f[inner := Rec(g[last := value])])]
  {
    Set3(m[key := Rec(f[inner := Rec(g)])], key, inner, last, value);
    assert f[inner := Rec(g)][inner := Rec(g[last := value])] == f[inner := Rec(g[last := value])];
  }

  /** The first entry of a section within a section. */
  lemma DeepNew(m: Fields, key: string, inner: string, last: string, value: Yaml)
    requires SubRecord(SubRecord(m, key), inner) == map[]
    ensures SetPath(m, [key, inner, last], value)
         == m[key := Rec(SubRecord(m, key)[inner := Rec(Section(last, value))])]
  {
    Set3(m, key, inner, last, value);
  }

  function Guardrails(): Fields {
    Section("hard_stop_enabled", Bool(true))[HARD_STOP := Rec(Limits())]
  }

  lemma GuardrailsAdded(m: Fields)
    requires GUARDRAILS !in m
    ensures ApplyAll(m, TOOL_EDITS[3..]) == m[GUARDRAILS := Rec(Guardrails())]
  {
    var es := TOOL_EDITS;
    assert es[3..] == [es[3], es[4], es[5]];
    InTurn(m, es[3], es[4], es[5]);
    var enabled, one := Section("hard_stop_enabled", Bool(true)), Section("exact_failure", Num(5.0));
    Set2(m, GUARDRAILS, "hard_stop_enabled", Bool(true));
    assert Apply(m, es[3]) == m[GUARDRAILS := Rec(enabled)];
    GuardrailLimits(m, enabled, one);
    assert Apply(Apply(m, es[3]), es[4]) == m[GUARDRAILS := Rec(enabled[HARD_STOP := Rec(one)])];
    DeepWithin(m, GUARDRAILS, enabled, HARD_STOP, one, "idempotent_no_progress", Num(5.0));
  }

  lemma GuardrailLimits(m: Fields, enabled: Fields, one: Fields)
    requires enabled == Section("hard_stop_enabled", Bool(true)) && one == Section("exact_failure", Num(5.0))
    ensures SetPath(m[GUARDRAILS := Rec(enabled)], [GUARDRAILS, HARD_STOP, "exact_failure"], Num(5.0))
         == m[GUARDRAILS := Rec(enabled[HARD_STOP := Rec(one)])]
  {
    DeepNew(m[GUARDRAILS := Rec(enabled)], GUARDRAILS, HARD_STOP, "exact_failure", Num(5.0));
  }

  lemma OldSwitchesAbsent(m: Fields)
    requires "api_server" !in m && "telegram" !in m && "gateway" !in m
    ensures ApplyAll(m, OLD_SWITCHES) == m
  {
    DeletesDoNothing(m, OLD_SWITCHES);
  }

  lemma PlatformsAdded(m: Fields)
    requires "platforms" !in m
    ensures ApplyAll(m, SWITCHES) == m["platforms" := Rec(Platforms())]
  {
    var es := SWITCHES;
    var api := Section("api_server", Rec(Section("enabled", Bool(true))));
    var one := Section("enabled", Bool(true));
    var two := one["allow_all_users" := Bool(false)];
    assert es == [es[0], es[1], es[2]] + [es[3]];
    ApplyAllConcat(m, [es[0], es[1], es[2]], [es[3]]);
    InTurn(m, es[0], es[1], es[2]);
    ApiServerAdded(m);
    TelegramAdded(m, api);
    DeepWithin(m, "platforms", api, "telegram", one, "allow_all_users", Bool(false));
    DeepWithin(m, "platforms", api, "telegram", two, "unauthorized_dm_behavior", Str("ignore"));
    assert ApplyAll(m, [es[0], es[1], es[2]]) == m["platforms" := Rec(api["telegram" := Rec(two)])];
    LastApplied(m["platforms" := Rec(api["telegram" := Rec(two)])], es[3]);
  }

  lemma LastApplied(m: Fields, e: Edit)
    ensures ApplyAll(m, [e]) == Apply(m, e)
  {
    assert [e][..0] == [];
  }

  lemma ApiServerAdded(m: Fields)
    requires "platforms" !in m
    ensures Apply(m, SWITCHES[0]) == m["platforms" := Rec(Section("api_server", Rec(Section("enabled", Bool(true)))))]
  {
    DeepNew(m, "platforms", "api_server", "enabled", Bool(true));
  }

  lemma TelegramAdded(m: Fields, api: Fields)
    requires "telegram" !in api
    ensures Apply(m["platforms" := Rec(api)], SWITCHES[1])
         == m["platforms" := Rec(api["telegram" := Rec(Section("enabled", Bool(true)))])]
  {
    DeepNew(m["platforms" := Rec(api)], "platforms", "telegram", "enabled", Bool(true));
  }

  lemma InParts(m: Fields, a: seq<Edit>, b: seq<Edit>, c: seq<Edit>, d: seq<Edit>)
    ensures ApplyAll(m, a + b + c + d) == ApplyAll(ApplyAll(ApplyAll(ApplyAll(m, a), b), c), d)
  {
    ApplyAllConcat(m, a + b + c, d);
    ApplyAllConcat(m, a + b, c);
    ApplyAllConcat(m, a, b);
  }

  lemma ToolSectionsAdded(m: Fields)
    requires "terminal" !in m && "browser" !in m && GUARDRAILS !in m
    ensures ApplyAll(m, TOOL_EDITS) == Tools(m)[GUARDRAILS := Rec(Guardrails())]
  {
    assert TOOL_EDITS == TOOL_EDITS[..3] + TOOL_EDITS[3..];
    ApplyAllConcat(m, TOOL_EDITS[..3], TOOL_EDITS[3..]);
    ToolsAdded(m);
    GuardrailsAdded(Tools(m));
  }

  lemma LegacyAbsent()
    ensures ApplyAll(map[], LEGACY) == map[]
  {
    forall e | e in LEGACY ensures e.Delete? { assert e in LEGACY_INNER || e in LEGACY_OUTER; }
    DeletesDoNothing(map[], LEGACY);
  }

  /** The keys of the first sections are none of the others. */
  lemma HeadKeys(provider: string, model: string)
    ensures var m := Head(provider, model);
            && "terminal" !in m && "browser" !in m && GUARDRAILS !in m
            && var tools := Tools(m)[GUARDRAILS := Rec(Guardrails())];
               "api_server" !in tools && "telegram" !in tools && "gateway" !in tools && "platforms" !in tools
  {
    assert Head(provider, model).Keys == {"_config_version", "model"};
    assert Tools(Head(provider, model))[GUARDRAILS := Rec(Guardrails())].Keys
        == {"_config_version", "model", "terminal", "browser", GUARDRAILS};
  }

  lemma RewrittenFromNothing(provider: string, model: string)
    ensures Rewritten(map[], provider, model) == Tree(provider, model)
  {
    var head := Head(provider, model);
    ApplyAllConcat(map[], LEGACY, Managed(provider, model));
    LegacyAbsent();
    InParts(map[], ModelEdits(provider, model), TOOL_EDITS, OLD_SWITCHES, SWITCHES);
    HeadOfNothing(provider, model);
    HeadKeys(provider, model);
    ToolSectionsAdded(head);
    OldSwitchesAbsent(Tools(head)[GUARDRAILS := Rec(Guardrails())]);
    PlatformsAdded(Tools(head)[GUARDRAILS := Rec(Guardrails())]);
  }

  // --------------------------------------------------------------------------------------- a document for the tree

  /** The library reads this tree from the document, which is no deeper and no larger than this. */
  ghost predicate Represents(doc: Raw, tree: Fields, room: nat, entries: nat) {
    && doc.RawMap? && PlainFields(doc, |doc.pairs|) == tree
    && Supported(doc, room) && Entries(doc) <= entries
  }

  function With(doc: Raw, key: string, child: Raw): Raw
    requires doc.RawMap?
  {
    RawMap(doc.pairs + [RawPair(TextKey(key), child)])
  }

  lemma {:induction false} EarlierPairs(doc: Raw, key: string, child: Raw, n: nat)
    requires doc.RawMap? && n <= |doc.pairs|
    ensures PlainFields(With(doc, key, child), n) == PlainFields(doc, n)
    ensures EntriesBelow(With(doc, key, child), n) == EntriesBelow(doc, n)
    ensures forall room :: SupportedBelow(With(doc, key, child), n, room) == SupportedBelow(doc, n, room)
  {
    if n > 0 {
      EarlierPairs(doc, key, child, n - 1);
      assert With(doc, key, child).pairs[n - 1] == doc.pairs[n - 1];
    }
  }

  lemma PairAdded(doc: Raw, tree: Fields, room: nat, entries: nat, key: string, child: Raw)
    requires Represents(doc, tree, room, entries) && key !in DANGEROUS && Supported(child, room - 1)
    ensures Represents(With(doc, key, child), tree[key := Plain(child)], room, entries + 1 + Entries(child))
  {
    var more, n := With(doc, key, child), |doc.pairs|;
    EarlierPairs(doc, key, child, n);
    assert Child(more, n) == child && TextOf(more.pairs[n].key) == key;
    assert SupportedBelow(more, n, room - 1);
    forall i | 0 <= i < n ensures SafeKey(more.pairs[i].key) { assert SafeKey(doc.pairs[i].key); }
  }

  lemma ValueAdded(doc: Raw, tree: Fields, room: nat, entries: nat, key: string, value: Yaml) returns (more: Raw)
    requires Represents(doc, tree, room, entries) && key !in DANGEROUS && room > 0 && !value.List? && !value.Rec?
    ensures Represents(more, tree[key := value], room, entries + 1)
  {
    more := With(doc, key, RawScalar(value));
    assert EntriesBelow(RawScalar(value), 0) == 0;
    PairAdded(doc, tree, room, entries, key, RawScalar(value));
  }

  lemma SectionAdded(doc: Raw, tree: Fields, room: nat, entries: nat, key: string, child: Raw, sub: Fields, inner: nat)
    returns (more: Raw)
    requires Represents(doc, tree, room, entries) && key !in DANGEROUS && room > 0
    requires Represents(child, sub, room - 1, inner)
    ensures Represents(more, tree[key := Rec(sub)], room, entries + 1 + inner)
  {
    more := With(doc, key, child);
    PairAdded(doc, tree, room, entries, key, child);
  }

  lemma Blank(room: nat)
    ensures Represents(RawMap([]), map[], room, 0)
  {
    assert EntriesBelow(RawMap([]), 0) == 0;
  }

  lemma One(room: nat, key: string, value: Yaml) returns (doc: Raw)
    requires room > 0 && key !in DANGEROUS && !value.List? && !value.Rec?
    ensures Represents(doc, Section(key, value), room, 1)
  {
    Blank(room);
    doc := ValueAdded(RawMap([]), map[], room, 0, key, value);
    assert map[][key := value] == Section(key, value);
  }

  lemma LimitsRead() returns (doc: Raw)
    ensures Represents(doc, Guardrails(), 63, 4)
  {
    var limits := One(62, "exact_failure", Num(5.0));
    limits := ValueAdded(limits, Section("exact_failure", Num(5.0)), 62, 1, "idempotent_no_progress", Num(5.0));
    doc := One(63, "hard_stop_enabled", Bool(true));
    doc := SectionAdded(doc, Section("hard_stop_enabled", Bool(true)), 63, 1, HARD_STOP, limits, Limits(), 2);
  }

  lemma TelegramRead() returns (doc: Raw)
    ensures Represents(doc, Telegram(), 62, 3)
  {
    var tree := Section("enabled", Bool(true));
    doc := One(62, "enabled", Bool(true));
    doc := ValueAdded(doc, tree, 62, 1, "allow_all_users", Bool(false));
    doc := ValueAdded(doc, tree["allow_all_users" := Bool(false)], 62, 2, "unauthorized_dm_behavior", Str("ignore"));
  }

  lemma PlatformsRead() returns (doc: Raw)
    ensures Represents(doc, Platforms(), 63, 6)
  {
    var enabled := One(62, "enabled", Bool(true));
    var telegram := TelegramRead();
    Blank(63);
    doc := SectionAdded(RawMap([]), map[], 63, 0, "api_server", enabled, Section("enabled", Bool(true)), 1);
    var tree := Section("api_server", Rec(Section("enabled", Bool(true))));
    assert map[]["api_server" := Rec(Section("enabled", Bool(true)))] == tree;
    doc := SectionAdded(doc, tree, 63, 2, "telegram", telegram, Telegram(), 3);
  }

  lemma HeadRead(provider: string, model: string) returns (doc: Raw)
    ensures Represents(doc, Head(provider, model), 64, 4)
  {
    var section := One(63, "provider", Str(provider));
    section := ValueAdded(section, Section("provider", Str(provider)), 63, 1, "default", Str(model));
    doc := One(64, "_config_version", Num(12.0));
    doc := SectionAdded(doc, Section("_config_version", Num(12.0)), 64, 1, "model", section,
                        ModelSection(provider, model), 2);
  }

  lemma ToolsRead(before: Raw, m: Fields, entries: nat) returns (doc: Raw)
    requires Represents(before, m, 64, entries)
    ensures Represents(doc, Tools(m), 64, entries + 5)
  {
    var terminal := One(63, "backend", Str("local"));
    terminal := ValueAdded(terminal, Section("backend", Str("local")), 63, 1, "cwd", Str("/workspace"));
    var tree := Section("backend", Str("local"))["cwd" := Str("/workspace")];
    doc := SectionAdded(before, m, 64, entries, "terminal", terminal, tree, 2);
    var browser := One(63, "enabled", Bool(false));
    doc := SectionAdded(doc, m["terminal" := Rec(tree)], 64, entries + 3, "browser", browser,
                        Section("enabled", Bool(false)), 1);
  }

  lemma TreeRead(provider: string, model: string) returns (doc: Raw)
    ensures Represents(doc, Tree(provider, model), 64, 21)
  {
    var head := Head(provider, model);
    doc := HeadRead(provider, model);
    doc := ToolsRead(doc, head, 4);
    var guardrails := LimitsRead();
    var platforms := PlatformsRead();
    doc := SectionAdded(doc, Tools(head), 64, 9, GUARDRAILS, guardrails, Guardrails(), 4);
    doc := SectionAdded(doc, Tools(head)[GUARDRAILS := Rec(Guardrails())], 64, 14, "platforms", platforms,
                        Platforms(), 6);
  }

  // ------------------------------------------------------------------------------------------------- the library

  /** The texts of two trees, and of all others. */
  datatype Texts = Texts(first: string, second: string, unreadable: string)

  const TEXTS := Texts("1\n", "2\n", "?\n")

  /** A library that prints two trees readably and reads them back, and everything else as a text it cannot read. */
  ghost function Prints(texts: Texts, first: Fields, firstDoc: Raw, second: Fields, secondDoc: Raw): Codec {
    Codec(
      text => if text == texts.first then Some(firstDoc) else if text == texts.second then Some(secondDoc) else None,
      tree => if tree == first then texts.first else if tree == second then texts.second else texts.unreadable,
      text => |text|,
      text => false)
  }

  predicate Printable(text: string) {
    UnixLines(text) == text && EndsWith(text, "\n") && Trim(text) != "" && |text| <= MAX_BYTES
  }

  lemma TextsArePrintable()
    ensures Printable(TEXTS.first) && Printable(TEXTS.second) && Printable(TEXTS.unreadable)
    ensures AllApart(TEXTS)
  {
    LineIsPrintable('1', "1\n");
    LineIsPrintable('2', "2\n");
    LineIsPrintable('?', "?\n");
  }

  lemma LineIsPrintable(c: char, line: string)
    requires !IsBlank(c) && line == [c, '\n']
    ensures Printable(line) && line[0] == c
  {
    UnixStep(c, "\n");
    UnixOneLine("");
    UnixStep('\n', "");
    assert [c] + "\n" == line && ['\n'] + "" == "\n";
    StartsDark(line);
  }

  lemma {:induction false} StartsDark(text: string)
    requires text != "" && !IsBlank(text[0])
    ensures Trim(text) != ""
    decreases |text|
  {
    if |text| > 1 && IsBlank(text[|text| - 1]) { StartsDark(text[..|text| - 1]); }
  }

  /** What is printable and is read from a document that represents a tree is parsed to that tree. */
  lemma ReadsDocument(text: string, tree: Fields, doc: Raw, codec: Codec)
    requires Represents(doc, tree, 64, MAX_ENTRIES) && Printable(text)
    requires codec.load(text) == Some(doc) && codec.size(text) <= MAX_BYTES && !codec.unsafe(text)
    ensures ParseConfig(text, codec) == Ok(tree)
  {
    assert Fits(doc, 0, 0);
  }

  lemma ReadsNothing(text: string, codec: Codec)
    requires Printable(text) && codec.load(text) == None
    ensures ParseConfig(text, codec).Err?
  {
  }

  predicate AllApart(texts: Texts) {
    texts.first != texts.second && texts.first != texts.unreadable && texts.second != texts.unreadable
  }

  lemma PrintsUndoesItself(texts: Texts, first: Fields, firstDoc: Raw, second: Fields, secondDoc: Raw, tree: Fields)
    requires Represents(firstDoc, first, 64, MAX_ENTRIES) && Represents(secondDoc, second, 64, MAX_ENTRIES)
    requires Printable(texts.first) && Printable(texts.second) && Printable(texts.unreadable) && AllApart(texts)
    ensures var codec := Prints(texts, first, firstDoc, second, secondDoc);
            var text := UnixLines(codec.format(tree));
            EndsWith(text, "\n") && (ParseConfig(text, codec).Ok? ==> ParseConfig(text, codec) == Ok(tree))
  {
    var codec := Prints(texts, first, firstDoc, second, secondDoc);
    if tree == first {
      ReadsDocument(texts.first, first, firstDoc, codec);
    } else if tree == second {
      ReadsDocument(texts.second, second, secondDoc, codec);
    } else {
      ReadsNothing(texts.unreadable, codec);
    }
  }

  lemma PrintsAndReads(texts: Texts, first: Fields, firstDoc: Raw, second: Fields, secondDoc: Raw)
    requires Represents(firstDoc, first, 64, MAX_ENTRIES) && Represents(secondDoc, second, 64, MAX_ENTRIES)
    requires Printable(texts.first) && Printable(texts.second) && Printable(texts.unreadable) && AllApart(texts)
    ensures var codec := Prints(texts, first, firstDoc, second, secondDoc);
            && UndoesItself(codec)
            && ParseConfig(texts.first, codec) == Ok(first) && ParseConfig(texts.second, codec) == Ok(second)
  {
    var codec := Prints(texts, first, firstDoc, second, secondDoc);
    ReadsDocument(texts.first, first, firstDoc, codec);
    ReadsDocument(texts.second, second, secondDoc, codec);
    forall tree: Fields
      ensures var text := UnixLines(codec.format(tree));
              EndsWith(text, "\n") && (ParseConfig(text, codec).Ok? ==> ParseConfig(text, codec) == Ok(tree))
    {
      PrintsUndoesItself(texts, first, firstDoc, second, secondDoc, tree);
    }
  }

  /** A library for the files of two models, made from an empty one. */
  lemma ModelLibrary(provider: string, first: string, second: string) returns (codec: Codec)
    ensures UndoesItself(codec) && codec.size("") == 0
    ensures forall model :: model in {first, second} ==> RenderConfig("", provider, model, codec, PATTERNS).Ok?
  {
    var firstDoc := TreeRead(provider, first);
    var secondDoc := TreeRead(provider, second);
    codec := Prints(TEXTS, Tree(provider, first), firstDoc, Tree(provider, second), secondDoc);
    TextsArePrintable();
    PrintsAndReads(TEXTS, Tree(provider, first), firstDoc, Tree(provider, second), secondDoc);
    forall model | model in {first, second} ensures RenderConfig("", provider, model, codec, PATTERNS).Ok? {
      var tree := Tree(provider, model);
      LegacyAbsent();
      ManagedFromNothing(provider, model);
      RenderSucceeds(provider, model, codec, PATTERNS, tree);
    }
  }

  /** Names of keys, and texts that look like keys to a model vendor. */
  const PATTERNS: Patterns := Patterns(key => key == "api_key", text => false, text => StartsWith(text, "sk-"))

  const KEY_SHAPED := "sk-0123456789abcdefghij"

  lemma PatternsArePlain(provider: string, model: string)
    ensures OwnNamesArePlain(PATTERNS, provider, model)
  {
    ModelNamesArePlain(provider, model);
    ToolNamesArePlain();
    SwitchNamesArePlain();
    StartsOtherwise("local");
    StartsOtherwise("/workspace");
    StartsOtherwise("ignore");
    forall e, k | e in Managed(provider, model) && e.Set? && k in e.path ensures !PATTERNS.secretKey(k) {
      assert e in ModelEdits(provider, model) || e in TOOL_EDITS || e in OLD_SWITCHES || e in SWITCHES;
    }
  }

  ghost predicate NamesArePlain(edits: seq<Edit>) {
    forall e, k :: e in edits && e.Set? && k in e.path ==> k != "api_key"
  }

  lemma ModelNamesArePlain(provider: string, model: string)
    ensures NamesArePlain(ModelEdits(provider, model))
  {
  }

  lemma ToolNamesArePlain()
    ensures NamesArePlain(TOOL_EDITS)
  {
  }

  lemma SwitchNamesArePlain()
    ensures NamesArePlain(OLD_SWITCHES) && NamesArePlain(SWITCHES)
  {
  }

  lemma StartsOtherwise(text: string)
    requires text != "" && !IsBlank(text[0]) && text[0] != 's'
    ensures !PATTERNS.keyShaped(Trim(text))
  {
    StartsDark(text);
    assert Trim(text) <= text;
  }

  lemma KeyShapedIsCaught()
    ensures PATTERNS.keyShaped(Trim(KEY_SHAPED))
  {
    assert SkipBlanks(KEY_SHAPED) == KEY_SHAPED && DropTrailingBlanks(KEY_SHAPED) == KEY_SHAPED;
  }

  /** An empty file rendered for this model is written, and rendering what was written is refused. */
  lemma OwnFileIsRefused(provider: string) returns (codec: Codec)
    ensures UndoesItself(codec) && OwnNamesArePlain(PATTERNS, provider, KEY_SHAPED)
    ensures var text := RenderConfig("", provider, KEY_SHAPED, codec, PATTERNS);
            text.Ok? && RenderConfig(text.value, provider, KEY_SHAPED, codec, PATTERNS) == Err(UnsafeSecret)
  {
    codec := ModelLibrary(provider, KEY_SHAPED, KEY_SHAPED);
    PatternsArePlain(provider, KEY_SHAPED);
    KeyShapedIsCaught();
    RenderAbsorbs("", provider, KEY_SHAPED, provider, KEY_SHAPED, codec, PATTERNS);
  }

  lemma RenderSucceeds(provider: string, model: string, codec: Codec, pt: Patterns, tree: Fields)
    requires !pt.secretKey("") && ApplyAll(map[], LEGACY) == map[]
    requires ApplyAll(map[], Managed(provider, model)) == tree
    requires ParseConfig(UnixLines(codec.format(tree)), codec) == Ok(tree)
    ensures RenderConfig("", provider, model, codec, pt).Ok?
  {
    assert ParseConfig("", codec) == Ok(map[]);
    var cleared: Fields := map[];
    assert Clean(Rec(cleared), "", pt);
  }

  lemma ManagedFromNothing(provider: string, model: string)
    ensures ApplyAll(map[], Managed(provider, model)) == Tree(provider, model)
  {
    LegacyAbsent();
    ApplyAllConcat(map[], LEGACY, Managed(provider, model));
    RewrittenFromNothing(provider, model);
  }
}
