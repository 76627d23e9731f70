/**
 What the config rewrite leaves in the tree, path by path, and what the checks around it let through, said without the
 functions that walk the tree.
 */
module ConfigMeaning {
  import opened ConfigTree
  import opened Options
  import opened Text

  // ------------------------------------------------------------------------------------------- the rewritten tree

  /** A path, and what is to be found there: a value, or nothing. */
  datatype Entry = Entry(path: Path, value: Option<Yaml>)

  /** The model asked for. */
  function ModelTable(provider: string, model: string): seq<Entry> {
    [
      Entry(["_config_version"], Some(Num(12.0))),
      Entry(["model", "provider"], Some(Str(provider))),
      Entry(["model", "default"], Some(Str(model))),
      Entry(["model", "api_key"], None)
    ]
  }

  /** The tools kept inside the workspace, and loops stopped. */
  const TOOL_TABLE: seq<Entry> := [
    Entry(["terminal", "backend"], Some(Str("local"))),
    Entry(["terminal", "cwd"], Some(Str("/workspace"))),
    Entry(["browser", "enabled"], Some(Bool(false))),
    Entry(["tool_loop_guardrails", "hard_stop_enabled"], Some(Bool(true))),
    Entry(["tool_loop_guardrails", "hard_stop_after", "exact_failure"], Some(Num(5.0))),
    Entry(["tool_loop_guardrails", "hard_stop_after", "idempotent_no_progress"], Some(Num(5.0)))
  ]

  /** The platforms switched on, for the allowed users only. */
  const SWITCH_TABLE: seq<Entry> := [
    Entry(["platforms", "api_server", "enabled"], Some(Bool(true))),
    Entry(["platforms", "telegram", "enabled"], Some(Bool(true))),
    Entry(["platforms", "telegram", "allow_all_users"], Some(Bool(false))),
    Entry(["platforms", "telegram", "unauthorized_dm_behavior"], Some(Str("ignore")))
  ]

  /** Switches of an older kind. */
  const OLD_TABLE: seq<Entry> := [
    Entry(["api_server", "enabled"], None),
    Entry(["telegram", "enabled"], None),
    Entry(["gateway", "platforms", "api_server", "enabled"], None),
    Entry(["gateway", "platforms", "telegram", "enabled"], None)
  ]

  /** Where secrets used to be. */
  const INNER_TABLE: seq<Entry> := [
    Entry(["model", "api_key"], None),
    Entry(["platforms", "telegram", "token"], None),
    Entry(["platforms", "telegram", "bot_token"], None),
    Entry(["platforms", "telegram", "allowed_users"], None),
    Entry(["platforms", "api_server", "key"], None)
  ]

  const OUTER_TABLE: seq<Entry> := [
    Entry(["api_server", "key"], None),
    Entry(["telegram", "token"], None),
    Entry(["telegram", "bot_token"], None),
    Entry(["telegram", "allowed_users"], None)
  ]

  /** All paths that the rewrite is about. */
  function ManagedTable(provider: string, model: string): seq<Entry> {
    (INNER_TABLE + OUTER_TABLE) + (ModelTable(provider, model) + TOOL_TABLE + OLD_TABLE + SWITCH_TABLE)
  }

  function EditOf(e: Entry): Edit { if e.value.Some? then Set(e.path, e.value.value) else Delete(e.path) }

  ghost predicate Makes(edits: seq<Edit>, table: seq<Entry>) {
    |edits| == |table| && forall i :: 0 <= i < |edits| ==> edits[i] == EditOf(table[i])
  }

  lemma ModelMakes(provider: string, model: string)
    ensures Makes(ModelEdits(provider, model), ModelTable(provider, model))
  {
  }

  lemma ToolsMake()
    ensures Makes(TOOL_EDITS, TOOL_TABLE)
  {
  }

  lemma SwitchesMake()
    ensures Makes(SWITCHES, SWITCH_TABLE) && Makes(OLD_SWITCHES, OLD_TABLE)
  {
  }

  lemma SecretsMake()
    ensures Makes(LEGACY_INNER, INNER_TABLE) && Makes(LEGACY_OUTER, OUTER_TABLE)
  {
  }

  lemma MakesConcat(a: seq<Edit>, b: seq<Edit>, s: seq<Entry>, t: seq<Entry>)
    requires Makes(a, s) && Makes(b, t)
    ensures Makes(a + b, s + t)
  {
  }

  lemma AllMake(provider: string, model: string)
    ensures Makes(AllEdits(provider, model), ManagedTable(provider, model))
  {
    ModelMakes(provider, model);
    ToolsMake();
    SwitchesMake();
    SecretsMake();
    var edits, table := ModelEdits(provider, model), ModelTable(provider, model);
    MakesConcat(edits, TOOL_EDITS, table, TOOL_TABLE);
    MakesConcat(edits + TOOL_EDITS, OLD_SWITCHES, table + TOOL_TABLE, OLD_TABLE);
    MakesConcat(edits + TOOL_EDITS + OLD_SWITCHES, SWITCHES, table + TOOL_TABLE + OLD_TABLE, SWITCH_TABLE);
    MakesConcat(LEGACY_INNER, LEGACY_OUTER, INNER_TABLE, OUTER_TABLE);
    MakesConcat(LEGACY, Managed(provider, model), INNER_TABLE + OUTER_TABLE,
                table + TOOL_TABLE + OLD_TABLE + SWITCH_TABLE);
  }

  /** Whatever the tree held before, every path of the table is afterwards as the table says. */
  lemma RewrittenAsTabled(m: Fields, provider: string, model: string, i: nat)
    requires i < |ManagedTable(provider, model)|
    ensures var e := ManagedTable(provider, model)[i]; Get(Rewritten(m, provider, model), e.path) == e.value
  {
    AllMake(provider, model);
    RewriteReaches(m, provider, model);
    TabledIsSettled(Rewritten(m, provider, model), AllEdits(provider, model), ManagedTable(provider, model), i);
  }

  lemma TabledIsSettled(m: Fields, edits: seq<Edit>, table: seq<Entry>, i: nat)
    requires Makes(edits, table) && i < |table| && forall e :: e in edits ==> Settled(m, e)
    ensures Get(m, table[i].path) == table[i].value
  {
    assert edits[i] in edits && edits[i] == EditOf(table[i]);
  }

  // ------------------------------------------------------------------------------------------------- the secret check

  datatype Step = Item(index: nat) | Field(name: string)

  /** What lies at the end of these steps, and the last key on the way there. */
  function Along(v: Yaml, key: string, steps: seq<Step>): Option<(Yaml, string)>
    decreases |steps|
  {
    if steps == [] then Some((v, key))
    else
      match steps[0]
      case Item(i) => if v.List? && i < |v.items| then Along(v.items[i], key, steps[1..]) else None
      case Field(k) => if v.Rec? && k in v.fields then Along(v.fields[k], k, steps[1..]) else None
  }

  /** Under a secret's name there is only the name of a variable; elsewhere no text looks like a key. */
  predicate Harmless(v: Yaml, key: string, pt: Patterns) {
    if pt.secretKey(key) then v.Str? && pt.envReference(Trim(v.text)) else v.Str? ==> !pt.keyShaped(Trim(v.text))
  }

  ghost predicate HarmlessAll(v: Yaml, key: string, pt: Patterns) {
    forall steps: seq<Step> ::
      var end := Along(v, key, steps);
      end.Some? ==> Harmless(end.value.0, end.value.1, pt)
  }

  lemma {:induction false} CleanIsHarmless(v: Yaml, key: string, pt: Patterns, steps: seq<Step>)
    requires Clean(v, key, pt) && Along(v, key, steps).Some?
    ensures var end := Along(v, key, steps).value; Harmless(end.0, end.1, pt)
    decreases |steps|
  {
    if steps != [] {
      match steps[0]
      case Item(i) => CleanIsHarmless(v.items[i], key, pt, steps[1..]);
      case Field(k) => CleanIsHarmless(v.fields[k], k, pt, steps[1..]);
    }
  }

  lemma OneStepOn(v: Yaml, key: string, pt: Patterns, step: Step)
    requires HarmlessAll(v, key, pt) && Along(v, key, [step]).Some?
    ensures var next := Along(v, key, [step]).value; HarmlessAll(next.0, next.1, pt)
  {
    assert [step][1..] == [];
    var next := Along(v, key, [step]).value;
    forall steps: seq<Step> | Along(next.0, next.1, steps).Some?
      ensures Harmless(Along(next.0, next.1, steps).value.0, Along(next.0, next.1, steps).value.1, pt)
    {
      assert ([step] + steps)[1..] == steps;
      assert Along(v, key, [step] + steps) == Along(next.0, next.1, steps);
    }
  }

  lemma {:induction false} HarmlessIsClean(v: Yaml, key: string, pt: Patterns)
    requires HarmlessAll(v, key, pt)
    ensures Clean(v, key, pt)
  {
    assert Along(v, key, []) == Some((v, key));
    match v
    case List(items) =>
      forall i | 0 <= i < |items| ensures Clean(items[i], key, pt) {
        assert [Item(i)][1..] == [];
        OneStepOn(v, key, pt, Item(i));
        HarmlessIsClean(items[i], key, pt);
      }
    case Rec(fields) =>
      forall k | k in fields ensures Clean(fields[k], k, pt) {
        assert [Field(k)][1..] == [];
        OneStepOn(v, key, pt, Field(k));
        HarmlessIsClean(fields[k], k, pt);
      }
    case _ =>
  }

  /** The check lets a tree pass exactly when everything in it is harmless, wherever it lies. */
  lemma CleanMeans(v: Yaml, key: string, pt: Patterns)
    ensures Clean(v, key, pt) <==> HarmlessAll(v, key, pt)
  {
    if Clean(v, key, pt) {
      forall steps: seq<Step> | Along(v, key, steps).Some?
        ensures Harmless(Along(v, key, steps).value.0, Along(v, key, steps).value.1, pt)
      {
        CleanIsHarmless(v, key, pt, steps);
      }
    }
    if HarmlessAll(v, key, pt) { HarmlessIsClean(v, key, pt); }
  }

  // ------------------------------------------------------------------------------------------------ the parsed file

  /** What the YAML library has at the end of these steps from child to child. */
  function Below(v: Raw, steps: seq<nat>): Option<Raw>
    decreases |steps|
  {
    if steps == [] then Some(v)
    else if steps[0] < Width(v) then Below(Child(v, steps[0]), steps[1..])
    else None
  }

  /** A value of a supported kind; a mapping has text for keys, and none that would reach an object's prototype. */
  predicate Sound(v: Raw) {
    match v
    case RawScalar(value) => value.Null? || value.Bool? || value.Num? || value.Str?
    case RawUnsupported => false
    case RawList(_) => true
    case RawMap(pairs) =>
      forall i :: 0 <= i < |pairs| ==>
        && pairs[i].key.TextKey? && pairs[i].key.text != "__proto__" && pairs[i].key.text != "prototype"
        && pairs[i].key.text != "constructor"
  }

  ghost predicate SoundWithin(v: Raw, room: int) {
    forall steps: seq<nat> :: Below(v, steps).Some? ==> |steps| <= room && Sound(Below(v, steps).value)
  }

  lemma {:induction false} SupportedIsSound(v: Raw, room: int, steps: seq<nat>)
    requires Supported(v, room) && Below(v, steps).Some?
    ensures |steps| <= room && Sound(Below(v, steps).value)
    decreases |steps|
  {
    if steps != [] {
      ChildSupported(v, Width(v), room - 1, steps[0]);
      SupportedIsSound(Child(v, steps[0]), room - 1, steps[1..]);
    }
  }

  lemma ChildIsSound(v: Raw, room: int, i: nat)
    requires SoundWithin(v, room) && i < Width(v)
    ensures SoundWithin(Child(v, i), room - 1)
  {
    forall steps: seq<nat> | Below(Child(v, i), steps).Some?
      ensures |steps| <= room - 1 && Sound(Below(Child(v, i), steps).value)
    {
      assert ([i] + steps)[1..] == steps;
      assert Below(v, [i] + steps) == Below(Child(v, i), steps);
    }
  }

  lemma {:induction false} SoundIsSupported(v: Raw, room: int)
    requires SoundWithin(v, room)
    ensures Supported(v, room)
    decreases v, Width(v) + 1
  {
    assert Below(v, []) == Some(v);
    SoundBelow(v, Width(v), room);
  }

  lemma {:induction false} SoundBelow(v: Raw, n: nat, room: int)
    requires SoundWithin(v, room) && n <= Width(v)
    ensures SupportedBelow(v, n, room - 1)
    decreases v, n
  {
    if n > 0 {
      SoundBelow(v, n - 1, room);
      ChildIsSound(v, room, n - 1);
      SoundIsSupported(Child(v, n - 1), room - 1);
    }
  }

  lemma SupportedMeans(v: Raw, room: int)
    ensures Supported(v, room) <==> SoundWithin(v, room)
  {
    if Supported(v, room) {
      forall steps: seq<nat> | Below(v, steps).Some? ensures |steps| <= room && Sound(Below(v, steps).value) {
        SupportedIsSound(v, room, steps);
      }
    }
    if SoundWithin(v, room) { SoundIsSupported(v, room); }
  }

  /**
   A config is read exactly when there is nothing in it, or it is within 256 KiB and without unsafe syntax, and one
   mapping whose values are sound at most 64 levels deep and have at most 4096 entries together.
   */
  lemma ParsedExactly(text: string, codec: Codec)
    ensures var raw := codec.load(text);
            var empty := forall c :: c in text ==> IsBlank(c);
            var sound := raw.Some? && raw.value.RawMap? && SoundWithin(raw.value, 64) && Entries(raw.value) <= 4096;
            && (empty ==> ParseConfig(text, codec) == Ok(map[]))
            && (!empty ==>
                  && (ParseConfig(text, codec) == Err(TooLarge) <==> codec.size(text) > 262144)
                  && (ParseConfig(text, codec) == Err(UnsafeSyntax) <==>
                        codec.size(text) <= 262144 && codec.unsafe(text))
                  && (ParseConfig(text, codec).Ok? <==>
                        codec.size(text) <= 262144 && !codec.unsafe(text) && sound))
  {
    NothingLeftMeans(text);
    var raw := codec.load(text);
    if raw.Some? { SupportedMeans(raw.value, 64); }
  }
}
