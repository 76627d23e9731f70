/**
 The managed rewrite of an agent's `config.yaml`: a nested tree of records is edited along fixed paths, checked for
 secrets, printed and read back. The printer, the parser and the secret patterns are parameters.
 */
module ConfigTree {
  import opened Options
  import opened Text

  type Fields = map<string, Yaml>

  datatype Yaml =
    | Null
    | Bool(flag: bool)
    | Num(number: real)
    | Str(text: string)
    | List(items: seq<Yaml>)
    | Rec(fields: Fields)

  type Path = p: seq<string> | p != [] witness [""]

  // ------------------------------------------------------------------------------------------------- edits and lookup

  function SubRecord(m: Fields, key: string): Fields {
    if key in m && m[key].Rec? then m[key].fields else map[]
  }

  /** `setPath`: whatever is in the way of the path is replaced by an empty record. */
  function SetPath(m: Fields, path: Path, value: Yaml): Fields
    decreases |path|
  {
    if |path| == 1 then m[path[0] := value]
    else m[path[0] := Rec(SetPath(SubRecord(m, path[0]), path[1..], value))]
  }

  /** `deletePath`: nothing happens when the path leaves the records. */
  function DeletePath(m: Fields, path: Path): Fields
    decreases |path|
  {
    if |path| == 1 then m - {path[0]}
    else if path[0] in m && m[path[0]].Rec? then m[path[0] := Rec(DeletePath(m[path[0]].fields, path[1..]))]
    else m
  }

  function Get(m: Fields, path: Path): Option<Yaml>
    decreases |path|
  {
    if path[0] !in m then None
    else if |path| == 1 then Some(m[path[0]])
    else if m[path[0]].Rec? then Get(m[path[0]].fields, path[1..])
    else None
  }

  datatype Edit = Set(path: Path, value: Yaml) | Delete(path: Path)

  function Apply(m: Fields, e: Edit): Fields {
    match e
    case Set(path, value) => SetPath(m, path, value)
    case Delete(path) => DeletePath(m, path)
  }

  function Inner(e: Edit): Edit
    requires |e.path| > 1
  {
    if e.Set? then Set(e.path[1..], e.value) else Delete(e.path[1..])
  }

  function ApplyAll(m: Fields, edits: seq<Edit>): Fields {
    if edits == [] then m else Apply(ApplyAll(m, edits[..|edits| - 1]), edits[|edits| - 1])
  }

  /** Neither path is a prefix of the other. */
  predicate Apart(p: seq<string>, q: seq<string>) {
    p != [] && q != [] && (p[0] != q[0] || Apart(p[1..], q[1..]))
  }

  lemma {:induction false} ApartIsSymmetric(p: seq<string>, q: seq<string>)
    requires Apart(p, q)
    ensures Apart(q, p)
  {
    if p[0] == q[0] { ApartIsSymmetric(p[1..], q[1..]); }
  }

  /** Not being apart is what it should be: one path starts with the other. */
  lemma {:induction false} ApartMeansNoPrefix(p: seq<string>, q: seq<string>)
    ensures Apart(p, q) <==> !(p <= q) && !(q <= p)
  {
    if p != [] && q != [] {
      ApartMeansNoPrefix(p[1..], q[1..]);
      assert p == [p[0]] + p[1..] && q == [q[0]] + q[1..];
      if p[0] == q[0] {
        assert p[1..] <= q[1..] ==> p <= q;
        assert q[1..] <= p[1..] ==> q <= p;
      }
    }
  }

  /** The edit has nothing left to do. */
  predicate Settled(m: Fields, e: Edit) {
    match e
    case Set(path, value) => Get(m, path) == Some(value)
    case Delete(path) => Get(m, path) == None
  }

  lemma {:induction false} SettledIsFixed(m: Fields, e: Edit)
    requires Settled(m, e)
    ensures Apply(m, e) == m
    decreases |e.path|
  {
    if |e.path| > 1 && e.path[0] in m && m[e.path[0]].Rec? {
      SettledIsFixed(m[e.path[0]].fields, Inner(e));
    }
  }

  lemma {:induction false} ApplySettles(m: Fields, e: Edit)
    ensures Settled(Apply(m, e), e)
    decreases |e.path|
  {
    if |e.path| > 1 {
      ApplySettles(SubRecord(m, e.path[0]), Inner(e));
    }
  }

  lemma EmptyHasNothing(path: Path)
    ensures Get(map[], path) == None
  {
  }

  /** An edit changes no lookup of a path that is neither a prefix nor an extension of its own. */
  lemma {:induction false} ApplyKeepsApart(m: Fields, e: Edit, path: Path)
    requires Apart(e.path, path)
    ensures Get(Apply(m, e), path) == Get(m, path)
    decreases |path|
  {
    if e.path[0] == path[0] {
      assert |path| > 1 && |e.path| > 1;
      ApplyKeepsApart(SubRecord(m, path[0]), Inner(e), path[1..]);
      EmptyHasNothing(path[1..]);
    }
  }

  // ------------------------------------------------------------------------------------------------- lists of edits

  /** Any two of the edits are the same one or have paths that are apart. */
  ghost predicate Independent(edits: seq<Edit>) {
    forall i, j :: 0 <= i < j < |edits| ==> edits[i] == edits[j] || Apart(edits[i].path, edits[j].path)
  }

  lemma {:induction false} ApplyAllSettles(m: Fields, edits: seq<Edit>)
    requires Independent(edits)
    ensures forall i :: 0 <= i < |edits| ==> Settled(ApplyAll(m, edits), edits[i])
  {
    if edits != [] {
      var n := |edits| - 1;
      var before, last := ApplyAll(m, edits[..n]), edits[n];
      ApplyAllSettles(m, edits[..n]);
      ApplySettles(before, last);
      forall i | 0 <= i < n ensures Settled(Apply(before, last), edits[i]) {
        assert edits[..n][i] == edits[i];
        if edits[i] != last {
          ApartIsSymmetric(edits[i].path, last.path);
          ApplyKeepsApart(before, last, edits[i].path);
        }
      }
    }
  }

  lemma {:induction false} SettledListIsFixed(m: Fields, edits: seq<Edit>)
    requires forall i :: 0 <= i < |edits| ==> Settled(m, edits[i])
    ensures ApplyAll(m, edits) == m
  {
    if edits != [] {
      var n := |edits| - 1;
      assert forall i :: 0 <= i < n ==> edits[..n][i] == edits[i];
      SettledListIsFixed(m, edits[..n]);
      SettledIsFixed(m, edits[n]);
    }
  }

  lemma {:induction false} ApplyAllKeepsApart(m: Fields, edits: seq<Edit>, path: Path)
    requires forall i :: 0 <= i < |edits| ==> Apart(edits[i].path, path)
    ensures Get(ApplyAll(m, edits), path) == Get(m, path)
  {
    if edits != [] {
      var n := |edits| - 1;
      assert forall i :: 0 <= i < n ==> edits[..n][i] == edits[i];
      ApplyAllKeepsApart(m, edits[..n], path);
      ApplyKeepsApart(ApplyAll(m, edits[..n]), edits[n], path);
    }
  }

  /** A later edit of the same kind at the same path makes an earlier one pointless. */
  lemma {:induction false} SamePathAbsorbs(m: Fields, e: Edit, f: Edit)
    requires SameKind(e, f)
    ensures Apply(Apply(m, e), f) == Apply(m, f)
    decreases |e.path|
  {
    if |e.path| > 1 {
      SamePathAbsorbs(SubRecord(m, e.path[0]), Inner(e), Inner(f));
    }
  }

  predicate Reaches(m: Fields, e: Edit) { e.Set? || (e.path[0] in m && m[e.path[0]].Rec?) }

  lemma ApplyDeep(m: Fields, e: Edit)
    requires |e.path| > 1
    ensures Apply(m, e) ==
            if Reaches(m, e) then m[e.path[0] := Rec(Apply(SubRecord(m, e.path[0]), Inner(e)))] else m
  {
  }

  function Entry(m: Fields, key: string): Option<Yaml> { if key in m then Some(m[key]) else None }

  function WithEntry(m: Fields, key: string, v: Option<Yaml>): Fields {
    if v.Some? then m[key := v.value] else m - {key}
  }

  /** What an edit makes of the entry at its first key; no other entry takes part. */
  function EntryAfter(v: Option<Yaml>, e: Edit): Option<Yaml> {
    if |e.path| == 1 then (if e.Set? then Some(e.value) else None)
    else
      var sub := if v.Some? && v.value.Rec? then v.value.fields else map[];
      if e.Set? || (v.Some? && v.value.Rec?) then Some(Rec(Apply(sub, Inner(e)))) else v
  }

  lemma ApplyIsLocal(m: Fields, e: Edit)
    ensures Apply(m, e) == WithEntry(m, e.path[0], EntryAfter(Entry(m, e.path[0]), e))
  {
    if |e.path| > 1 { ApplyDeep(m, e); }
  }

  lemma EntriesCommute(m: Fields, a: string, v: Option<Yaml>, b: string, w: Option<Yaml>)
    requires a != b
    ensures WithEntry(WithEntry(m, a, v), b, w) == WithEntry(WithEntry(m, b, w), a, v)
    ensures Entry(WithEntry(m, a, v), b) == Entry(m, b)
  {
  }

  lemma DifferentKeysCommute(m: Fields, e: Edit, f: Edit)
    requires e.path[0] != f.path[0]
    ensures Apply(Apply(m, e), f) == Apply(Apply(m, f), e)
  {
    var a, b := e.path[0], f.path[0];
    ApplyIsLocal(m, e);
    ApplyIsLocal(m, f);
    ApplyIsLocal(Apply(m, e), f);
    ApplyIsLocal(Apply(m, f), e);
    EntriesCommute(m, a, EntryAfter(Entry(m, a), e), b, EntryAfter(Entry(m, b), f));
    EntriesCommute(m, b, EntryAfter(Entry(m, b), f), a, EntryAfter(Entry(m, a), e));
  }

  lemma DeleteFromEmpty(e: Edit)
    requires e.Delete?
    ensures Apply(map[], e) == map[]
  {
  }

  /** Edits at paths that are apart may change places. */
  lemma {:induction false} ApartCommutes(m: Fields, e: Edit, f: Edit)
    requires Apart(e.path, f.path)
    ensures Apply(Apply(m, e), f) == Apply(Apply(m, f), e)
    decreases |e.path|
  {
    var key := e.path[0];
    if key != f.path[0] {
      DifferentKeysCommute(m, e, f);
    } else {
      assert |e.path| > 1 && |f.path| > 1;
      ApartCommutes(SubRecord(m, key), Inner(e), Inner(f));
      if e.Delete? { DeleteFromEmpty(Inner(e)); }
      if f.Delete? { DeleteFromEmpty(Inner(f)); }
      ApplyDeep(m, e);
      ApplyDeep(m, f);
      ApplyDeep(Apply(m, e), f);
      ApplyDeep(Apply(m, f), e);
    }
  }

  predicate SameKind(e: Edit, f: Edit) { e.path == f.path && e.Set? == f.Set? }

  /** An edit before a list is either overtaken by one of its own kind, or can be made after the list. */
  lemma {:induction false} OvertakenOrLast(m: Fields, e: Edit, edits: seq<Edit>)
    requires forall i :: 0 <= i < |edits| ==> SameKind(e, edits[i]) || Apart(e.path, edits[i].path)
    ensures var after := ApplyAll(Apply(m, e), edits);
            after == ApplyAll(m, edits) || after == Apply(ApplyAll(m, edits), e)
  {
    if edits != [] {
      var n := |edits| - 1;
      assert forall i :: 0 <= i < n ==> edits[..n][i] == edits[i];
      OvertakenOrLast(m, e, edits[..n]);
      var before := ApplyAll(m, edits[..n]);
      if SameKind(e, edits[n]) { SamePathAbsorbs(before, e, edits[n]); } else { ApartCommutes(before, e, edits[n]); }
    }
  }

  /** The same paths, set or deleted alike, in the same order. */
  ghost predicate SameShape(es: seq<Edit>, fs: seq<Edit>) {
    |es| == |fs| && forall i :: 0 <= i < |es| ==> SameKind(es[i], fs[i])
  }

  /** A list of edits absorbs an earlier list of the same shape: the values set before do not matter. */
  lemma {:induction false} ListAbsorbs(m: Fields, es: seq<Edit>, fs: seq<Edit>)
    requires SameShape(es, fs) && Independent(fs)
    ensures ApplyAll(ApplyAll(m, es), fs) == ApplyAll(m, fs)
  {
    if es != [] {
      var n := |es| - 1;
      var e, f, first := es[n], fs[n], ApplyAll(m, es[..n]);
      assert SameShape(es[..n], fs[..n]) && Independent(fs[..n]);
      forall i | 0 <= i < n ensures SameKind(e, fs[..n][i]) || Apart(e.path, fs[..n][i].path) {
        if fs[i] != f { ApartIsSymmetric(fs[i].path, f.path); }
      }
      OvertakenOrLast(first, e, fs[..n]);
      SamePathAbsorbs(ApplyAll(first, fs[..n]), e, f);
      ListAbsorbs(m, es[..n], fs[..n]);
    }
  }

  // --------------------------------------------------------------------------------------------- the managed edits

  const LEGACY_INNER: seq<Edit> := [
    Delete(["model", "api_key"]),
    Delete(["platforms", "telegram", "token"]),
    Delete(["platforms", "telegram", "bot_token"]),
    Delete(["platforms", "telegram", "allowed_users"]),
    Delete(["platforms", "api_server", "key"])
  ]

  const LEGACY_OUTER: seq<Edit> := [
    Delete(["api_server", "key"]),
    Delete(["telegram", "token"]),
    Delete(["telegram", "bot_token"]),
    Delete(["telegram", "allowed_users"])
  ]

  function ModelEdits(provider: string, model: string): seq<Edit> {
    [
      Set(["_config_version"], Num(12.0)),
      Set(["model", "provider"], Str(provider)),
      Set(["model", "default"], Str(model)),
      Delete(["model", "api_key"])
    ]
  }

  const TOOL_EDITS: seq<Edit> := [
    Set(["terminal", "backend"], Str("local")),
    Set(["terminal", "cwd"], Str("/workspace")),
    Set(["browser", "enabled"], Bool(false)),
    Set(["tool_loop_guardrails", "hard_stop_enabled"], Bool(true)),
    Set(["tool_loop_guardrails", "hard_stop_after", "exact_failure"], Num(5.0)),
    Set(["tool_loop_guardrails", "hard_stop_after", "idempotent_no_progress"], Num(5.0))
  ]

  const OLD_SWITCHES: seq<Edit> := [
    Delete(["api_server", "enabled"]),
    Delete(["telegram", "enabled"]),
    Delete(["gateway", "platforms", "api_server", "enabled"]),
    Delete(["gateway", "platforms", "telegram", "enabled"])
  ]

  const SWITCHES: seq<Edit> := [
    Set(["platforms", "api_server", "enabled"], Bool(true)),
    Set(["platforms", "telegram", "enabled"], Bool(true)),
    Set(["platforms", "telegram", "allow_all_users"], Bool(false)),
    Set(["platforms", "telegram", "unauthorized_dm_behavior"], Str("ignore"))
  ]

  /** `removeManagedLegacySecretPaths` */
  const LEGACY: seq<Edit> := LEGACY_INNER + LEGACY_OUTER

  /** The edits after the secret check. */
  function Managed(provider: string, model: string): seq<Edit> {
    ModelEdits(provider, model) + TOOL_EDITS + OLD_SWITCHES + SWITCHES
  }

  function AllEdits(provider: string, model: string): seq<Edit> {
    LEGACY + Managed(provider, model)
  }

  ghost predicate CrossApart(some: seq<Edit>, others: seq<Edit>) {
    forall i, j :: 0 <= i < |some| && 0 <= j < |others| ==> some[i] == others[j] || Apart(some[i].path, others[j].path)
  }

  lemma LegacyApart()
    ensures CrossApart(LEGACY_INNER, LEGACY_INNER)
  {
  }

  lemma LegacyHalvesApart()
    ensures CrossApart(LEGACY_INNER, LEGACY_OUTER)
  {
  }

  lemma LegacyOuterApart()
    ensures CrossApart(LEGACY_OUTER, LEGACY_OUTER)
  {
  }

  lemma LegacyApartFromTools(provider: string, model: string)
    ensures CrossApart(LEGACY, ModelEdits(provider, model) + TOOL_EDITS)
  {
  }

  lemma LegacyApartFromOldSwitches()
    ensures CrossApart(LEGACY, OLD_SWITCHES)
  {
  }

  lemma LegacyInnerApartFromSwitches()
    ensures CrossApart(LEGACY_INNER, SWITCHES)
  {
  }

  lemma LegacyOuterApartFromSwitches()
    ensures CrossApart(LEGACY_OUTER, SWITCHES)
  {
  }

  lemma ModelApart(provider: string, model: string)
    ensures CrossApart(ModelEdits(provider, model), ModelEdits(provider, model))
    ensures CrossApart(ModelEdits(provider, model), TOOL_EDITS)
  {
  }

  lemma ToolsApart()
    ensures CrossApart(TOOL_EDITS, TOOL_EDITS)
  {
  }

  lemma ToolsApartFromSwitches(provider: string, model: string)
    ensures CrossApart(ModelEdits(provider, model) + TOOL_EDITS, OLD_SWITCHES + SWITCHES)
  {
  }

  lemma OldSwitchesApart()
    ensures CrossApart(OLD_SWITCHES, OLD_SWITCHES)
  {
  }

  lemma OldSwitchesApartFromNew()
    ensures CrossApart(OLD_SWITCHES, SWITCHES)
  {
  }

  lemma SwitchesApart()
    ensures CrossApart(SWITCHES, SWITCHES)
  {
  }

  lemma Together(a: seq<Edit>, b: seq<Edit>)
    requires Independent(a) && Independent(b) && CrossApart(a, b)
    ensures Independent(a + b)
  {
  }

  lemma Alone(a: seq<Edit>)
    requires CrossApart(a, a)
    ensures Independent(a)
  {
  }

  lemma CrossConcat(a: seq<Edit>, b: seq<Edit>, c: seq<Edit>)
    ensures CrossApart(a, b) && CrossApart(a, c) ==> CrossApart(a, b + c)
    ensures CrossApart(a, c) && CrossApart(b, c) ==> CrossApart(a + b, c)
  {
  }

  /** The paths written or deleted by the managed rewrite never contain one another, except where they are the same. */
  lemma AllEditsIndependent(provider: string, model: string)
    ensures Independent(AllEdits(provider, model))
  {
    var models, tools := ModelEdits(provider, model), ModelEdits(provider, model) + TOOL_EDITS;
    var switches := OLD_SWITCHES + SWITCHES;
    LegacyApart();
    LegacyHalvesApart();
    LegacyOuterApart();
    LegacyApartFromTools(provider, model);
    LegacyApartFromOldSwitches();
    LegacyInnerApartFromSwitches();
    LegacyOuterApartFromSwitches();
    ModelApart(provider, model);
    ToolsApart();
    ToolsApartFromSwitches(provider, model);
    OldSwitchesApart();
    OldSwitchesApartFromNew();
    SwitchesApart();
    Alone(LEGACY_INNER);
    Alone(LEGACY_OUTER);
    Alone(models);
    Alone(TOOL_EDITS);
    Alone(OLD_SWITCHES);
    Alone(SWITCHES);
    Together(LEGACY_INNER, LEGACY_OUTER);
    Together(models, TOOL_EDITS);
    Together(OLD_SWITCHES, SWITCHES);
    Together(tools, switches);
    CrossConcat(LEGACY_INNER, LEGACY_OUTER, SWITCHES);
    CrossConcat(LEGACY, OLD_SWITCHES, SWITCHES);
    CrossConcat(LEGACY, tools, switches);
    Together(LEGACY, tools + switches);
    assert Managed(provider, model) == tools + switches;
  }

  lemma {:induction false} ApplyAllConcat(m: Fields, a: seq<Edit>, b: seq<Edit>)
    ensures ApplyAll(m, a + b) == ApplyAll(ApplyAll(m, a), b)
  {
    if b == [] {
      assert a + b == a;
    } else {
      assert (a + b)[..|a + b| - 1] == a + b[..|b| - 1];
      ApplyAllConcat(m, a, b[..|b| - 1]);
    }
  }

  /** What a managed rewrite makes of a tree: set paths have their values, deleted ones are gone, the rest stays. */
  function Rewritten(m: Fields, provider: string, model: string): Fields {
    ApplyAll(m, AllEdits(provider, model))
  }

  lemma RewriteReaches(m: Fields, provider: string, model: string)
    ensures forall e :: e in AllEdits(provider, model) ==> Settled(Rewritten(m, provider, model), e)
  {
    AllEditsIndependent(provider, model);
    ApplyAllSettles(m, AllEdits(provider, model));
  }

  lemma RewriteIsIdempotent(m: Fields, provider: string, model: string)
    ensures Rewritten(Rewritten(m, provider, model), provider, model) == Rewritten(m, provider, model)
  {
    RewriteReaches(m, provider, model);
    SettledListIsFixed(Rewritten(m, provider, model), AllEdits(provider, model));
  }

  lemma RewriteKeepsTheRest(m: Fields, provider: string, model: string, path: Path)
    requires forall e :: e in AllEdits(provider, model) ==> !(e.path <= path) && !(path <= e.path)
    ensures Get(Rewritten(m, provider, model), path) == Get(m, path)
  {
    var edits := AllEdits(provider, model);
    forall i | 0 <= i < |edits| ensures Apart(edits[i].path, path) {
      assert edits[i] in edits;
      ApartMeansNoPrefix(edits[i].path, path);
    }
    ApplyAllKeepsApart(m, edits, path);
  }

  // --------------------------------------------------------------------------------------------------- secret check

  datatype Patterns = Patterns(secretKey: string -> bool, envReference: string -> bool, keyShaped: string -> bool)

  /** `rejectSecretBearingYaml` lets this value pass under this key. */
  predicate Clean(v: Yaml, key: string, pt: Patterns) {
    if pt.secretKey(key) then v.Str? && pt.envReference(Trim(v.text))
    else match v
      case List(items) => forall i :: 0 <= i < |items| ==> Clean(items[i], key, pt)
      case Rec(fields) => forall k :: k in fields ==> Clean(fields[k], k, pt)
      case Str(text) => !pt.keyShaped(Trim(text))
      case _ => true
  }

  predicate CleanFields(m: Fields, pt: Patterns) {
    forall k :: k in m ==> Clean(m[k], k, pt)
  }

  /** None of the key names the service itself writes looks like the name of a secret. */
  ghost predicate OwnNamesArePlain(pt: Patterns, provider: string, model: string) {
    && !pt.secretKey("")
    && (forall e, k :: e in Managed(provider, model) && e.Set? && k in e.path ==> !pt.secretKey(k))
    && !pt.keyShaped(Trim("local")) && !pt.keyShaped(Trim("/workspace")) && !pt.keyShaped(Trim("ignore"))
  }

  predicate PlainValue(v: Yaml, pt: Patterns) {
    v.Bool? || v.Num? || (v.Str? && !pt.keyShaped(Trim(v.text)))
  }

  lemma {:induction false} DeleteStaysClean(m: Fields, path: Path, pt: Patterns)
    requires CleanFields(m, pt)
    ensures CleanFields(DeletePath(m, path), pt)
    decreases |path|
  {
    if |path| > 1 && path[0] in m && m[path[0]].Rec? {
      DeleteStaysClean(m[path[0]].fields, path[1..], pt);
    }
  }

  lemma {:induction false} SetStaysClean(m: Fields, path: Path, value: Yaml, pt: Patterns)
    requires CleanFields(m, pt) && PlainValue(value, pt)
    requires forall k :: k in path ==> !pt.secretKey(k)
    ensures CleanFields(SetPath(m, path, value), pt)
    decreases |path|
  {
    assert path[0] in path;
    if |path| > 1 {
      SetStaysClean(SubRecord(m, path[0]), path[1..], value, pt);
    }
  }

  lemma {:induction false} EditsStayClean(m: Fields, edits: seq<Edit>, pt: Patterns)
    requires CleanFields(m, pt)
    requires forall e :: e in edits && e.Set? ==>
               PlainValue(e.value, pt) && forall k :: k in e.path ==> !pt.secretKey(k)
    ensures CleanFields(ApplyAll(m, edits), pt)
  {
    if edits != [] {
      var n := |edits| - 1;
      assert forall e :: e in edits[..n] ==> e in edits;
      EditsStayClean(m, edits[..n], pt);
      var before, e := ApplyAll(m, edits[..n]), edits[n];
      assert e in edits;
      match e {
        case Set(path, value) => SetStaysClean(before, path, value, pt);
        case Delete(path) => DeleteStaysClean(before, path, pt);
      }
    }
  }

  /** A text that can be looked up in a clean tree under plain names is not key-shaped. */
  lemma {:induction false} CleanLookup(m: Fields, path: Path, text: string, pt: Patterns)
    requires CleanFields(m, pt) && Get(m, path) == Some(Str(text))
    requires forall k :: k in path ==> !pt.secretKey(k)
    ensures !pt.keyShaped(Trim(text))
    decreases |path|
  {
    assert path[0] in path;
    if |path| > 1 {
      CleanLookup(m[path[0]].fields, path[1..], text, pt);
    }
  }

  ghost predicate PlainValues(edits: seq<Edit>, pt: Patterns) {
    forall i :: 0 <= i < |edits| && edits[i].Set? ==> PlainValue(edits[i].value, pt)
  }

  lemma ModelValuesArePlain(provider: string, model: string, pt: Patterns)
    requires !pt.keyShaped(Trim(provider)) && !pt.keyShaped(Trim(model))
    ensures PlainValues(ModelEdits(provider, model), pt)
  {
  }

  lemma ToolValuesArePlain(pt: Patterns)
    requires !pt.keyShaped(Trim("local")) && !pt.keyShaped(Trim("/workspace"))
    ensures PlainValues(TOOL_EDITS, pt)
  {
  }

  lemma SwitchValuesArePlain(pt: Patterns)
    requires !pt.keyShaped(Trim("ignore"))
    ensures PlainValues(OLD_SWITCHES, pt) && PlainValues(SWITCHES, pt)
  {
  }

  lemma ManagedValuesArePlain(provider: string, model: string, pt: Patterns)
    requires OwnNamesArePlain(pt, provider, model)
    requires !pt.keyShaped(Trim(provider)) && !pt.keyShaped(Trim(model))
    ensures forall e :: e in Managed(provider, model) && e.Set? ==>
              PlainValue(e.value, pt) && forall k :: k in e.path ==> !pt.secretKey(k)
  {
    ModelValuesArePlain(provider, model, pt);
    ToolValuesArePlain(pt);
    SwitchValuesArePlain(pt);
    PlainConcat(ModelEdits(provider, model), TOOL_EDITS, pt);
    PlainConcat(ModelEdits(provider, model) + TOOL_EDITS, OLD_SWITCHES, pt);
    PlainConcat(ModelEdits(provider, model) + TOOL_EDITS + OLD_SWITCHES, SWITCHES, pt);
  }

  lemma PlainConcat(a: seq<Edit>, b: seq<Edit>, pt: Patterns)
    requires PlainValues(a, pt) && PlainValues(b, pt)
    ensures PlainValues(a + b, pt)
  {
  }

  // ------------------------------------------------------------------------------------------- reading the document

  const MAX_ENTRIES := 4096
  const MAX_DEPTH := 64
  const MAX_BYTES := 256 * 1024

  datatype RawKey = TextKey(text: string) | OtherKey

  /** What the YAML library returns: maps with any keys, and values the service does not support. */
  datatype Raw =
    | RawScalar(value: Yaml)
    | RawUnsupported
    | RawList(items: seq<Raw>)
    | RawMap(pairs: seq<RawPair>)

  datatype RawPair = RawPair(key: RawKey, value: Raw)

  const DANGEROUS: set<string> := {"__proto__", "prototype", "constructor"}

  predicate SafeKey(k: RawKey) { k.TextKey? && k.text !in DANGEROUS }

  function Width(v: Raw): nat {
    match v
    case RawList(items) => |items|
    case RawMap(pairs) => |pairs|
    case _ => 0
  }

  function Child(v: Raw, i: nat): Raw
    requires i < Width(v)
  {
    if v.RawList? then v.items[i] else v.pairs[i].value
  }

  /** The entries of all lists and maps in a value, its own included. */
  function Entries(v: Raw): nat
    decreases v, Width(v) + 1
  {
    Width(v) + EntriesBelow(v, Width(v))
  }

  /** The entries below the first n children. */
  function EntriesBelow(v: Raw, n: nat): nat
    requires n <= Width(v)
    decreases v, n
  {
    if n == 0 then 0 else EntriesBelow(v, n - 1) + Entries(Child(v, n - 1))
  }

  /** Everything in this value is supported, every key is safe, and nothing lies deeper than `room` levels. */
  predicate Supported(v: Raw, room: int)
    decreases v, Width(v) + 1
  {
    && room >= 0
    && !v.RawUnsupported?
    && (v.RawScalar? ==> !v.value.List? && !v.value.Rec?)
    && (v.RawMap? ==> forall i :: 0 <= i < |v.pairs| ==> SafeKey(v.pairs[i].key))
    && SupportedBelow(v, Width(v), room - 1)
  }

  /** The same of the first n children. */
  predicate SupportedBelow(v: Raw, n: nat, room: int)
    requires n <= Width(v)
    decreases v, n
  {
    n == 0 || (SupportedBelow(v, n - 1, room) && Supported(Child(v, n - 1), room))
  }

  /** The plain tree a supported value stands for. */
  function Plain(v: Raw): Yaml
    decreases v, Width(v) + 1
  {
    match v
    case RawScalar(value) => value
    case RawUnsupported => Null
    case RawList(items) => List(PlainItems(v, |items|))
    case RawMap(pairs) => Rec(PlainFields(v, |pairs|))
  }

  function PlainItems(v: Raw, n: nat): seq<Yaml>
    requires v.RawList? && n <= |v.items|
    decreases v, n
  {
    if n == 0 then [] else PlainItems(v, n - 1) + [Plain(Child(v, n - 1))]
  }

  function TextOf(k: RawKey): string { if k.TextKey? then k.text else "" }

  function PlainFields(v: Raw, n: nat): Fields
    requires v.RawMap? && n <= |v.pairs|
    decreases v, n
  {
    if n == 0 then map[]
    else PlainFields(v, n - 1)[TextOf(v.pairs[n - 1].key) := Plain(Child(v, n - 1))]
  }

  class Counter {
    var entries: nat

    constructor ()
      ensures entries == 0
    {
      entries := 0;
    }
  }

  lemma {:induction false} EntriesBelowGrow(v: Raw, i: nat, n: nat)
    requires i <= n <= Width(v)
    ensures EntriesBelow(v, i) <= EntriesBelow(v, n)
    decreases n
  {
    if i < n { EntriesBelowGrow(v, i, n - 1); }
  }

  /** With this many entries counted before, a value at this depth can be copied. */
  predicate Fits(v: Raw, depth: nat, before: nat) {
    Supported(v, MAX_DEPTH - depth) && before + Entries(v) <= MAX_ENTRIES
  }

  /**
   `copyYamlValue`: copies a value while one counter runs over the whole document. It succeeds exactly when the value
   is supported and its entries still fit; then the counter has grown by all of them.
   */
  method CopyValue(v: Raw, depth: nat, counter: Counter) returns (copy: Option<Yaml>)
    requires counter.entries <= MAX_ENTRIES
    modifies counter
    ensures copy.Some? <==> Fits(v, depth, old(counter.entries))
    ensures copy.Some? ==> copy.value == Plain(v) && counter.entries == old(counter.entries) + Entries(v)
    decreases v, 1
  {
    if depth > MAX_DEPTH { return None; }
    match v {
      case RawMap(_) =>
        var fields := CopyMap(v, depth, counter);
        copy := if fields.None? then None else Some(Rec(fields.value));
      case RawList(_) =>
        var items := CopyList(v, depth, counter);
        copy := if items.None? then None else Some(List(items.value));
      case RawScalar(value) =>
        assert EntriesBelow(v, 0) == 0 && SupportedBelow(v, 0, MAX_DEPTH - depth - 1);
        copy := if value.List? || value.Rec? then None else Some(value);
      case RawUnsupported =>
        copy := None;
    }
  }

  /** What fits as a whole fits child by child, with everything counted that is counted before the child. */
  lemma ChildFits(v: Raw, depth: nat, before: nat, i: nat)
    requires i < Width(v) && Fits(v, depth, before)
    ensures Fits(Child(v, i), depth + 1, before + Width(v) + EntriesBelow(v, i))
  {
    ChildSupported(v, Width(v), MAX_DEPTH - depth - 1, i);
    ChildCounted(v, i);
  }

  lemma {:induction false} ChildSupported(v: Raw, n: nat, room: int, i: nat)
    requires i < n <= Width(v) && SupportedBelow(v, n, room)
    ensures Supported(Child(v, i), room)
    decreases n
  {
    if i < n - 1 { ChildSupported(v, n - 1, room, i); }
  }

  lemma ChildCounted(v: Raw, i: nat)
    requires i < Width(v)
    ensures EntriesBelow(v, i) + Entries(Child(v, i)) <= EntriesBelow(v, Width(v))
  {
    EntriesBelowGrow(v, i + 1, Width(v));
  }

  lemma KeysAreSafe(v: Raw, depth: nat, before: nat, i: nat)
    requires v.RawMap? && i < |v.pairs| && Fits(v, depth, before)
    ensures SafeKey(v.pairs[i].key)
  {
  }

  method CopyList(v: Raw, depth: nat, counter: Counter) returns (copy: Option<seq<Yaml>>)
    requires v.RawList? && depth <= MAX_DEPTH && counter.entries <= MAX_ENTRIES
    modifies counter
    ensures copy.Some? <==> Fits(v, depth, old(counter.entries))
    ensures copy.Some? ==>
              copy.value == PlainItems(v, |v.items|) && counter.entries == old(counter.entries) + Entries(v)
    decreases v, 0
  {
    ghost var start := counter.entries;
    counter.entries := counter.entries + |v.items|;
    if counter.entries > MAX_ENTRIES { return None; }
    var items: seq<Yaml> := [];
    for i := 0 to |v.items|
      invariant items == PlainItems(v, i)
      invariant SupportedBelow(v, i, MAX_DEPTH - depth - 1)
      invariant counter.entries == start + |v.items| + EntriesBelow(v, i) <= MAX_ENTRIES
    {
      if Fits(v, depth, start) { ChildFits(v, depth, start, i); }
      var item := CopyValue(Child(v, i), depth + 1, counter);
      if item.None? { return None; }
      items := items + [item.value];
    }
    return Some(items);
  }

  /** `copyYamlMap` */
  method CopyMap(v: Raw, depth: nat, counter: Counter) returns (copy: Option<Fields>)
    requires v.RawMap? && depth <= MAX_DEPTH && counter.entries <= MAX_ENTRIES
    modifies counter
    ensures copy.Some? <==> Fits(v, depth, old(counter.entries))
    ensures copy.Some? ==>
              copy.value == PlainFields(v, |v.pairs|) && counter.entries == old(counter.entries) + Entries(v)
    decreases v, 0
  {
    ghost var start := counter.entries;
    counter.entries := counter.entries + |v.pairs|;
    if counter.entries > MAX_ENTRIES { return None; }
    var fields: Fields := map[];
    for i := 0 to |v.pairs|
      invariant fields == PlainFields(v, i)
      invariant SupportedBelow(v, i, MAX_DEPTH - depth - 1) && forall j :: 0 <= j < i ==> SafeKey(v.pairs[j].key)
      invariant counter.entries == start + |v.pairs| + EntriesBelow(v, i) <= MAX_ENTRIES
    {
      if Fits(v, depth, start) {
        ChildFits(v, depth, start, i);
        KeysAreSafe(v, depth, start, i);
      }
      if !SafeKey(v.pairs[i].key) { return None; }
      var value := CopyValue(Child(v, i), depth + 1, counter);
      if value.None? { return None; }
      fields := fields[v.pairs[i].key.text := value.value];
    }
    return Some(fields);
  }

  // ------------------------------------------------------------------------------------------------ the whole file

  /** The YAML library and the checks made on the text itself. */
  datatype Codec = Codec(
    load: string -> Option<Raw>, format: Fields -> string, size: string -> nat, unsafe: string -> bool)

  datatype ConfigError = TooLarge | UnsafeSyntax | InvalidYaml | UnsafeSecret

  /** `parseHermesYaml` */
  function ParseConfig(text: string, codec: Codec): Result<Fields, ConfigError> {
    if Trim(text) == "" then Ok(map[])
    else if codec.size(text) > MAX_BYTES then Err(TooLarge)
    else if codec.unsafe(text) then Err(UnsafeSyntax)
    else
      var raw := codec.load(text);
      if raw.Some? && raw.value.RawMap? && Fits(raw.value, 0, 0) then Ok(PlainFields(raw.value, |raw.value.pairs|))
      else Err(InvalidYaml)
  }

  function EndLine(text: string): string {
    if EndsWith(text, "\n") then text else text + "\n"
  }

  /** `renderManagedHermesConfig` */
  function RenderConfig(existing: string, provider: string, model: string, codec: Codec, pt: Patterns)
    : Result<string, ConfigError>
  {
    var parsed := ParseConfig(existing, codec);
    if parsed.Err? then Err(parsed.error)
    else
      var cleared := ApplyAll(parsed.value, LEGACY);
      if !Clean(Rec(cleared), "", pt) then Err(UnsafeSecret)
      else
        var text := UnixLines(codec.format(ApplyAll(cleared, Managed(provider, model))));
        var again := ParseConfig(text, codec);
        if again.Err? then Err(again.error) else Ok(EndLine(text))
  }

  /** Printing ends with a line end, and parsing what was printed gives the tree back, if the parser takes it at all. */
  ghost predicate UndoesItself(codec: Codec) {
    forall tree: Fields ::
      var text := UnixLines(codec.format(tree));
      EndsWith(text, "\n") && (ParseConfig(text, codec).Ok? ==> ParseConfig(text, codec) == Ok(tree))
  }

  /** A rendered file holds exactly the rewritten tree. */
  lemma RenderedReadsBack(existing: string, provider: string, model: string, codec: Codec, pt: Patterns)
    requires UndoesItself(codec)
    requires RenderConfig(existing, provider, model, codec, pt).Ok?
    ensures ParseConfig(existing, codec).Ok?
    ensures ParseConfig(RenderConfig(existing, provider, model, codec, pt).value, codec)
         == Ok(Rewritten(ParseConfig(existing, codec).value, provider, model))
  {
    ApplyAllConcat(ParseConfig(existing, codec).value, LEGACY, Managed(provider, model));
  }

  lemma AllEditsSameShape(p1: string, m1: string, p2: string, m2: string)
    ensures SameShape(AllEdits(p1, m1), AllEdits(p2, m2))
  {
    var es, fs := ModelEdits(p1, m1), ModelEdits(p2, m2);
    assert SameShape(es, fs);
    SameTail(es, fs, TOOL_EDITS + OLD_SWITCHES + SWITCHES);
    assert Managed(p1, m1) == es + (TOOL_EDITS + OLD_SWITCHES + SWITCHES);
    assert Managed(p2, m2) == fs + (TOOL_EDITS + OLD_SWITCHES + SWITCHES);
    SameHead(LEGACY, Managed(p1, m1), Managed(p2, m2));
  }

  lemma SameTail(es: seq<Edit>, fs: seq<Edit>, tail: seq<Edit>)
    requires SameShape(es, fs)
    ensures SameShape(es + tail, fs + tail)
  {
  }

  lemma SameHead(head: seq<Edit>, es: seq<Edit>, fs: seq<Edit>)
    requires SameShape(es, fs)
    ensures SameShape(head + es, head + fs)
  {
  }

  /** A rewrite for one model followed by a rewrite for another is the second alone. */
  lemma RewriteAbsorbs(m: Fields, p1: string, m1: string, p2: string, m2: string)
    ensures Rewritten(Rewritten(m, p1, m1), p2, m2) == Rewritten(m, p2, m2)
  {
    AllEditsSameShape(p1, m1, p2, m2);
    AllEditsIndependent(p2, m2);
    ListAbsorbs(m, AllEdits(p1, m1), AllEdits(p2, m2));
  }

  /**
   Rendering a file that was rendered before gives what rendering the original would have given, exactly when neither
   the earlier provider nor the earlier model name looks like a key: otherwise the service refuses its own file.
   */
  lemma RenderAbsorbs(existing: string, p1: string, m1: string, p2: string, m2: string, codec: Codec, pt: Patterns)
    requires UndoesItself(codec) && OwnNamesArePlain(pt, p1, m1)
    requires RenderConfig(existing, p1, m1, codec, pt).Ok?
    ensures var again := RenderConfig(RenderConfig(existing, p1, m1, codec, pt).value, p2, m2, codec, pt);
            if pt.keyShaped(Trim(p1)) || pt.keyShaped(Trim(m1)) then again == Err(UnsafeSecret)
            else again == RenderConfig(existing, p2, m2, codec, pt)
  {
    var start := ParseConfig(existing, codec).value;
    var tree := Rewritten(start, p1, m1);
    RenderedReadsBack(existing, p1, m1, codec, pt);
    RewriteReaches(start, p1, m1);
    SettledSublists(tree, p1, m1);
    SettledListIsFixed(tree, LEGACY);
    ApplyAllConcat(start, LEGACY, Managed(p1, m1));
    ApplyAllConcat(start, LEGACY, Managed(p2, m2));
    ApplyAllConcat(tree, LEGACY, Managed(p2, m2));
    RewriteAbsorbs(start, p1, m1, p2, m2);
    WhenRewrittenIsClean(ApplyAll(start, LEGACY), p1, m1, pt);
  }

  /** In particular, rendering again for the same model changes nothing. */
  lemma RenderIsIdempotent(existing: string, provider: string, model: string, codec: Codec, pt: Patterns)
    requires UndoesItself(codec) && OwnNamesArePlain(pt, provider, model)
    requires RenderConfig(existing, provider, model, codec, pt).Ok?
    ensures var text := RenderConfig(existing, provider, model, codec, pt).value;
            (RenderConfig(text, provider, model, codec, pt) == Ok(text)
             <==> !pt.keyShaped(Trim(provider)) && !pt.keyShaped(Trim(model)))
  {
    RenderAbsorbs(existing, provider, model, provider, model, codec, pt);
  }

  lemma SettledSublists(tree: Fields, provider: string, model: string)
    requires forall e :: e in AllEdits(provider, model) ==> Settled(tree, e)
    ensures forall i :: 0 <= i < |LEGACY| ==> Settled(tree, LEGACY[i])
  {
    assert forall i :: 0 <= i < |LEGACY| ==> LEGACY[i] in AllEdits(provider, model);
  }

  lemma ModelEditsAreManaged(provider: string, model: string)
    ensures Set(["model", "provider"], Str(provider)) in Managed(provider, model)
    ensures Set(["model", "default"], Str(model)) in Managed(provider, model)
  {
    var edits := ModelEdits(provider, model);
    assert edits[1] in edits && edits[2] in edits;
    assert forall e :: e in edits ==> e in Managed(provider, model);
  }

  lemma ManagedTextIsPlain(cleared: Fields, provider: string, model: string, pt: Patterns, path: Path, text: string)
    requires OwnNamesArePlain(pt, provider, model) && Set(path, Str(text)) in Managed(provider, model)
    requires CleanFields(ApplyAll(cleared, Managed(provider, model)), pt)
    ensures !pt.keyShaped(Trim(text))
  {
    var e := Set(path, Str(text));
    ManagedSettles(cleared, provider, model);
    assert forall k :: k in e.path ==> !pt.secretKey(k);
    CleanLookup(ApplyAll(cleared, Managed(provider, model)), path, text, pt);
  }

  lemma WhenRewrittenIsClean(cleared: Fields, provider: string, model: string, pt: Patterns)
    requires OwnNamesArePlain(pt, provider, model) && Clean(Rec(cleared), "", pt)
    ensures Clean(Rec(ApplyAll(cleared, Managed(provider, model))), "", pt)
       <==> !pt.keyShaped(Trim(provider)) && !pt.keyShaped(Trim(model))
  {
    var tree := ApplyAll(cleared, Managed(provider, model));
    if !pt.keyShaped(Trim(provider)) && !pt.keyShaped(Trim(model)) {
      ManagedValuesArePlain(provider, model, pt);
      EditsStayClean(cleared, Managed(provider, model), pt);
    } else if CleanFields(tree, pt) {
      ModelEditsAreManaged(provider, model);
      ManagedTextIsPlain(cleared, provider, model, pt, ["model", "provider"], provider);
      ManagedTextIsPlain(cleared, provider, model, pt, ["model", "default"], model);
    }
  }

  lemma ManagedSettles(m: Fields, provider: string, model: string)
    ensures forall e :: e in Managed(provider, model) ==> Settled(ApplyAll(m, Managed(provider, model)), e)
  {
    AllEditsIndependent(provider, model);
    var edits := Managed(provider, model);
    assert forall i :: 0 <= i < |edits| ==> AllEdits(provider, model)[|LEGACY| + i] == edits[i];
    assert Independent(edits);
    ApplyAllSettles(m, edits);
  }

  lemma VersionIsManaged(provider: string, model: string)
    ensures Set(["_config_version"], Num(12.0)) in AllEdits(provider, model)
  {
    var version := ModelEdits(provider, model)[0];
    assert version in ModelEdits(provider, model);
  }

  lemma RewrittenIsNotEmpty(m: Fields, provider: string, model: string)
    ensures Rewritten(m, provider, model) != map[]
  {
    VersionIsManaged(provider, model);
    RewriteReaches(m, provider, model);
    assert Settled(Rewritten(m, provider, model), Set(["_config_version"], Num(12.0)));
  }

  /** A rendered file is within the limit the service reads it with, and is not blank. */
  lemma RenderedIsReadable(existing: string, provider: string, model: string, codec: Codec, pt: Patterns)
    requires UndoesItself(codec) && RenderConfig(existing, provider, model, codec, pt).Ok?
    ensures var text := RenderConfig(existing, provider, model, codec, pt).value;
            codec.size(text) <= MAX_BYTES && Trim(text) != ""
  {
    RenderedReadsBack(existing, provider, model, codec, pt);
    RewrittenIsNotEmpty(ParseConfig(existing, codec).value, provider, model);
  }

  /** What a rendered file gives its reader: set paths have their values, deleted ones are absent, the rest is kept. */
  lemma RenderedMeans(existing: string, provider: string, model: string, codec: Codec, pt: Patterns, path: Path)
    requires UndoesItself(codec) && RenderConfig(existing, provider, model, codec, pt).Ok?
    ensures var before := ParseConfig(existing, codec);
            var after := ParseConfig(RenderConfig(existing, provider, model, codec, pt).value, codec);
            && before.Ok? && after.Ok?
            && (forall e :: e in AllEdits(provider, model) ==>
                  Get(after.value, e.path) == if e.Set? then Some(e.value) else None)
            && ((forall e :: e in AllEdits(provider, model) ==> !(e.path <= path) && !(path <= e.path)) ==>
                  Get(after.value, path) == Get(before.value, path))
  {
    RenderedReadsBack(existing, provider, model, codec, pt);
    var start := ParseConfig(existing, codec).value;
    RewriteReaches(start, provider, model);
    if forall e :: e in AllEdits(provider, model) ==> !(e.path <= path) && !(path <= e.path) {
      RewriteKeepsTheRest(start, provider, model, path);
    }
  }
}
