/**
 The merge of an agent's `.env` file: lines the service owns are replaced by freshly rendered ones, every other line
 stays; and the reader that later looks the API server key up in the merged file.
 */
module EnvFile {
  import opened Options
  import opened Ordering
  import opened Text

  // ------------------------------------------------------------------------------------------------- one line

  predicate IsIdentStart(c: char) { 'A' <= c <= 'Z' || 'a' <= c <= 'z' || c == '_' }

  predicate IsWord(c: char) { IsIdentStart(c) || '0' <= c <= '9' }

  predicate IsIdentifier(s: string) {
    s != [] && IsIdentStart(s[0]) && forall c :: c in s ==> IsWord(c)
  }

  /** The longest run of word characters. */
  function Word(s: string): (w: string)
    ensures w <= s
  {
    if s != [] && IsWord(s[0]) then [s[0]] + Word(s[1..]) else []
  }

  /** `([A-Za-z_][A-Za-z0-9_]*)\s*=` */
  function KeyAt(s: string): Option<string> {
    var word := Word(s);
    var rest := SkipBlanks(s[|word|..]);
    if word != [] && IsIdentStart(word[0]) && rest != [] && rest[0] == '=' then Some(word) else None
  }

  predicate HasExport(s: string) {
    StartsWith(s, "export") && |s| > 6 && IsBlank(s[6])
  }

  /** `parseEnvAssignment`: a leading `export` is tried as a prefix first, and as the key itself when that fails. */
  function ParseAssignment(line: string): Option<string> {
    var s := SkipBlanks(line);
    var exported := if HasExport(s) then KeyAt(SkipBlanks(s[6..])) else None;
    if exported.Some? then exported else KeyAt(s)
  }

  predicate StartsWithWord(s: string, word: string) {
    StartsWith(s, word) && (|s| == |word| || !IsWord(s[|word|]))
  }

  predicate Mentions(line: string, key: string) {
    var s := SkipBlanks(line);
    StartsWithWord(s, key) || (HasExport(s) && StartsWithWord(SkipBlanks(s[6..]), key))
  }

  const MANAGED_KEYS: seq<string> := [
    "OPENROUTER_API_KEY",
    "OPENAI_API_KEY",
    "ANTHROPIC_API_KEY",
    "TELEGRAM_BOT_TOKEN",
    "TELEGRAM_ALLOWED_USERS",
    "API_SERVER_KEY",
    "API_SERVER_ENABLED",
    "API_SERVER_HOST",
    "API_SERVER_PORT",
    "GATEWAY_ALLOW_ALL_USERS",
    "TELEGRAM_ALLOW_ALL_USERS"
  ]

  const NATIVE_KEYS: seq<string> := ["API_SERVER_ENABLED", "API_SERVER_HOST", "API_SERVER_KEY"]

  /** `rejectUnsupportedEnvLine` and `rejectMalformedManagedEnvLine` let the line pass. */
  predicate Acceptable(line: string) {
    && !EndsWith(DropTrailingBlanks(line), "\\")
    && (ParseAssignment(line).None? ==> forall i :: 0 <= i < |MANAGED_KEYS| ==> !Mentions(line, MANAGED_KEYS[i]))
  }

  predicate Keep(line: string, owned: seq<string>) {
    var key := ParseAssignment(line);
    key.None? || key.value !in owned
  }

  function KeptLines(lines: seq<string>, owned: seq<string>): seq<string> {
    Filter(lines, (line: string) => Keep(line, owned))
  }

  lemma KeptConcat(a: seq<string>, b: seq<string>, owned: seq<string>)
    ensures KeptLines(a + b, owned) == KeptLines(a, owned) + KeptLines(b, owned)
  {
    FilterConcat(a, b, (line: string) => Keep(line, owned));
  }

  lemma KeptOne(line: string, owned: seq<string>)
    ensures KeptLines([line], owned) == if Keep(line, owned) then [line] else []
  {
    FilterOne(line, (line: string) => Keep(line, owned));
  }

  // ----------------------------------------------------------------------------------------------- rendered lines

  datatype Credential = OpenRouter(key: string) | Anthropic(key: string) | OpenAi(key: string)

  datatype EnvSpec =
    | ManagedEnv(credential: Credential, botToken: string, allowedUsers: string, apiServerKey: string)
    | NativeEnv(apiServerKey: string)

  function Owned(spec: EnvSpec): seq<string> {
    if spec.ManagedEnv? then MANAGED_KEYS else NATIVE_KEYS
  }

  predicate IsControl(c: char) { c < ' ' || c == '\U{7F}' }

  predicate NoControl(s: string) { forall c :: c in s ==> !IsControl(c) }

  predicate ValuesAllowed(spec: EnvSpec) {
    && NoControl(spec.apiServerKey)
    && (spec.ManagedEnv? ==> NoControl(spec.credential.key) && NoControl(spec.botToken) && NoControl(spec.allowedUsers))
  }

  /** What `JSON.stringify` does to a text without control characters. */
  function Escaped(s: string): string {
    if s == [] then []
    else (if s[0] == '"' || s[0] == '\\' then ['\\', s[0]] else [s[0]]) + Escaped(s[1..])
  }

  function Quoted(s: string): string { "\"" + Escaped(s) + "\"" }

  function CredentialName(c: Credential): string {
    match c
    case OpenRouter(_) => "OPENROUTER_API_KEY"
    case Anthropic(_) => "ANTHROPIC_API_KEY"
    case OpenAi(_) => "OPENAI_API_KEY"
  }

  const API_SERVER_KEY := "API_SERVER_KEY"

  datatype Pair = Pair(key: string, text: string)

  function BeforeKey(spec: EnvSpec): seq<Pair> {
    match spec
    case ManagedEnv(credential, botToken, allowedUsers, _) => [
      Pair(CredentialName(credential), Quoted(credential.key)),
      Pair("TELEGRAM_BOT_TOKEN", Quoted(botToken)),
      Pair("TELEGRAM_ALLOWED_USERS", Quoted(allowedUsers))
    ]
    case NativeEnv(_) => [
      Pair("API_SERVER_ENABLED", "true"),
      Pair("API_SERVER_HOST", "0.0.0.0")
    ]
  }

  function AfterKey(spec: EnvSpec): seq<Pair> {
    if spec.NativeEnv? then [] else [
      Pair("API_SERVER_ENABLED", "true"),
      Pair("API_SERVER_HOST", "0.0.0.0"),
      Pair("API_SERVER_PORT", "8642"),
      Pair("GATEWAY_ALLOW_ALL_USERS", "false"),
      Pair("TELEGRAM_ALLOW_ALL_USERS", "false")
    ]
  }

  function RenderedPairs(spec: EnvSpec): seq<Pair> {
    BeforeKey(spec) + [Pair(API_SERVER_KEY, Quoted(spec.apiServerKey))] + AfterKey(spec)
  }

  function LineOf(p: Pair): string { p.key + "=" + p.text }

  function LinesOf(pairs: seq<Pair>): seq<string> {
    if pairs == [] then [] else [LineOf(pairs[0])] + LinesOf(pairs[1..])
  }

  /** `renderHermesEnv`: one line per pair, and an empty last line. */
  function Rendered(spec: EnvSpec): string {
    Join(LinesOf(RenderedPairs(spec)) + [""])
  }

  // ------------------------------------------------------------------------------------------------------ the merge

  const MAX_ENV_BYTES := 256 * 1024

  function CharBytes(c: char): nat {
    if c < '\U{80}' then 1 else if c < '\U{800}' then 2 else if c < '\U{10000}' then 3 else 4
  }

  function Utf8Size(s: string): nat {
    if s == [] then 0 else Utf8Size(s[..|s| - 1]) + CharBytes(s[|s| - 1])
  }

  datatype EnvError = InvalidFile | UnsupportedLine | ControlCharacter

  function DropTrailingEmpty(lines: seq<string>): seq<string> {
    if lines != [] && lines[|lines| - 1] == "" then DropTrailingEmpty(lines[..|lines| - 1]) else lines
  }

  function FileLines(text: string): seq<string> { Split(UnixLines(text)) }

  predicate AllAcceptable(lines: seq<string>) {
    forall i :: 0 <= i < |lines| ==> Acceptable(lines[i])
  }

  /** The lines without an owned key, in order, up to the last that is not empty. */
  function Preserved(existing: string, spec: EnvSpec): seq<string> {
    DropTrailingEmpty(KeptLines(FileLines(existing), Owned(spec)))
  }

  predicate FitsFile(text: string) { '\0' !in text && Utf8Size(text) <= MAX_ENV_BYTES }

  /** `mergeHermesEnv`, as a function: the method below refines it. */
  function Merge(existing: string, spec: EnvSpec): Result<string, EnvError> {
    if !FitsFile(existing) then Err(InvalidFile)
    else if !AllAcceptable(FileLines(existing)) then Err(UnsupportedLine)
    else if !ValuesAllowed(spec) then Err(ControlCharacter)
    else
      Ok(Together(Preserved(existing, spec), Rendered(spec)))
  }

  /** The preserved lines, if there are any, in front of the rendered text. */
  function Together(preserved: seq<string>, rendered: string): string {
    (if preserved == [] then "" else Join(preserved) + "\n") + rendered
  }

  /** The filter's callback, line by line: it stops at the first line it cannot read. */
  method FilterLines(lines: seq<string>, owned: seq<string>) returns (preserved: Option<seq<string>>)
    ensures preserved.Some? <==> AllAcceptable(lines)
    ensures preserved.Some? ==> preserved.value == KeptLines(lines, owned)
  {
    var kept: seq<string> := [];
    for i := 0 to |lines|
      invariant AllAcceptable(lines[..i])
      invariant kept == KeptLines(lines[..i], owned)
    {
      assert lines[..i + 1] == lines[..i] + [lines[i]];
      KeptConcat(lines[..i], [lines[i]], owned);
      KeptOne(lines[i], owned);
      if !Acceptable(lines[i]) { return None; }
      if Keep(lines[i], owned) { kept := kept + [lines[i]]; }
    }
    assert lines[..|lines|] == lines;
    return Some(kept);
  }

  /** `mergeHermesEnv`: filters, pops the empty lines at the end, and appends the rendered block. */
  method MergeHermesEnv(existing: string, spec: EnvSpec) returns (r: Result<string, EnvError>)
    ensures r == Merge(existing, spec)
  {
    if !FitsFile(existing) { return Err(InvalidFile); }
    var filtered := FilterLines(FileLines(existing), Owned(spec));
    if filtered.None? { return Err(UnsupportedLine); }
    var preserved := filtered.value;
    while preserved != [] && preserved[|preserved| - 1] == ""
      invariant DropTrailingEmpty(preserved) == Preserved(existing, spec)
    {
      preserved := preserved[..|preserved| - 1];
    }
    if !ValuesAllowed(spec) { return Err(ControlCharacter); }
    return Ok(if |preserved| > 0 then Join(preserved) + "\n" + Rendered(spec) else "" + Rendered(spec));
  }

  // ---------------------------------------------------------------------------------- what the merged file consists of

  lemma {:induction false} EscapedHasNoControl(s: string)
    requires NoControl(s)
    ensures NoControl(Escaped(s))
  {
    if s != [] {
      assert s[0] in s && forall c :: c in s[1..] ==> c in s;
      EscapedHasNoControl(s[1..]);
    }
  }

  /** A value on one line that ends neither in a blank nor in a backslash. */
  predicate PlainText(text: string) {
    NoControl(text) && text != "" && text[|text| - 1] != '\\' && !IsBlank(text[|text| - 1])
  }

  predicate WellFormed(p: Pair) { IsIdentifier(p.key) && PlainText(p.text) }

  lemma QuotedIsPlain(value: string)
    requires NoControl(value)
    ensures PlainText(Quoted(value))
  {
    EscapedHasNoControl(value);
  }

  lemma CredentialKeysAreIdentifiers(c: Credential)
    ensures IsIdentifier(CredentialName(c)) && CredentialName(c) in MANAGED_KEYS && CredentialName(c) != API_SERVER_KEY
  {
    assert MANAGED_KEYS[0] in MANAGED_KEYS && MANAGED_KEYS[1] in MANAGED_KEYS && MANAGED_KEYS[2] in MANAGED_KEYS;
  }

  /** A rendered pair other than the API server key's. */
  ghost predicate OtherPair(p: Pair, spec: EnvSpec) {
    WellFormed(p) && p.key in Owned(spec) && p.key != API_SERVER_KEY
  }

  lemma IsOtherPair(key: string, text: string, spec: EnvSpec)
    requires IsIdentifier(key) && PlainText(text) && key in Owned(spec) && key != API_SERVER_KEY
    ensures OtherPair(Pair(key, text), spec)
  {
  }

  lemma FixedTextsArePlain()
    ensures PlainText("true") && PlainText("false") && PlainText("0.0.0.0") && PlainText("8642")
  {
  }

  lemma ServerNames()
    ensures IsIdentifier("API_SERVER_ENABLED") && IsIdentifier("API_SERVER_HOST") && IsIdentifier("API_SERVER_PORT")
  {
  }

  lemma GatewayNames()
    ensures IsIdentifier("GATEWAY_ALLOW_ALL_USERS") && IsIdentifier("TELEGRAM_ALLOW_ALL_USERS")
  {
  }

  lemma TelegramNames()
    ensures IsIdentifier("TELEGRAM_BOT_TOKEN") && IsIdentifier("TELEGRAM_ALLOWED_USERS")
  {
  }

  lemma ServerNamesAreOwned(spec: EnvSpec)
    ensures "API_SERVER_ENABLED" in Owned(spec) && "API_SERVER_HOST" in Owned(spec)
  {
    assert MANAGED_KEYS[6] in MANAGED_KEYS && MANAGED_KEYS[7] in MANAGED_KEYS;
    assert NATIVE_KEYS[0] in NATIVE_KEYS && NATIVE_KEYS[1] in NATIVE_KEYS;
  }

  lemma OtherNamesAreOwned()
    ensures "TELEGRAM_BOT_TOKEN" in MANAGED_KEYS && "TELEGRAM_ALLOWED_USERS" in MANAGED_KEYS
    ensures "API_SERVER_PORT" in MANAGED_KEYS
    ensures "GATEWAY_ALLOW_ALL_USERS" in MANAGED_KEYS && "TELEGRAM_ALLOW_ALL_USERS" in MANAGED_KEYS
  {
    assert MANAGED_KEYS[3] in MANAGED_KEYS && MANAGED_KEYS[4] in MANAGED_KEYS && MANAGED_KEYS[8] in MANAGED_KEYS;
    assert MANAGED_KEYS[9] in MANAGED_KEYS && MANAGED_KEYS[10] in MANAGED_KEYS;
  }

  ghost predicate OtherPairs(pairs: seq<Pair>, spec: EnvSpec) {
    forall i :: 0 <= i < |pairs| ==> OtherPair(pairs[i], spec)
  }

  lemma BeforeIsGood(spec: EnvSpec)
    requires ValuesAllowed(spec)
    ensures OtherPairs(BeforeKey(spec), spec)
  {
    match spec {
      case ManagedEnv(credential, botToken, allowedUsers, _) =>
        CredentialKeysAreIdentifiers(credential);
        TelegramNames();
        OtherNamesAreOwned();
        QuotedIsPlain(credential.key);
        QuotedIsPlain(botToken);
        QuotedIsPlain(allowedUsers);
        IsOtherPair(CredentialName(credential), Quoted(credential.key), spec);
        IsOtherPair("TELEGRAM_BOT_TOKEN", Quoted(botToken), spec);
        IsOtherPair("TELEGRAM_ALLOWED_USERS", Quoted(allowedUsers), spec);
      case NativeEnv(_) =>
        ServerPairsAreGood(spec);
    }
  }

  lemma ServerPairsAreGood(spec: EnvSpec)
    ensures OtherPair(Pair("API_SERVER_ENABLED", "true"), spec) && OtherPair(Pair("API_SERVER_HOST", "0.0.0.0"), spec)
  {
    FixedTextsArePlain();
    ServerNames();
    ServerNamesAreOwned(spec);
    IsOtherPair("API_SERVER_ENABLED", "true", spec);
    IsOtherPair("API_SERVER_HOST", "0.0.0.0", spec);
  }

  lemma AfterIsGood(spec: EnvSpec)
    ensures OtherPairs(AfterKey(spec), spec)
  {
    if spec.ManagedEnv? {
      ServerPairsAreGood(spec);
      FixedTextsArePlain();
      ServerNames();
      GatewayNames();
      OtherNamesAreOwned();
      IsOtherPair("API_SERVER_PORT", "8642", spec);
      IsOtherPair("GATEWAY_ALLOW_ALL_USERS", "false", spec);
      IsOtherPair("TELEGRAM_ALLOW_ALL_USERS", "false", spec);
    }
  }

  lemma ServerKeyIsOwned(spec: EnvSpec)
    ensures API_SERVER_KEY in Owned(spec) && IsIdentifier(API_SERVER_KEY)
  {
    assert MANAGED_KEYS[5] in MANAGED_KEYS && NATIVE_KEYS[2] in NATIVE_KEYS;
  }

  ghost predicate GoodPairs(pairs: seq<Pair>, owned: seq<string>) {
    forall i :: 0 <= i < |pairs| ==> WellFormed(pairs[i]) && pairs[i].key in owned
  }

  lemma RenderedIsGood(spec: EnvSpec)
    requires ValuesAllowed(spec)
    ensures GoodPairs(RenderedPairs(spec), Owned(spec))
  {
    BeforeIsGood(spec);
    AfterIsGood(spec);
    ServerKeyIsOwned(spec);
    QuotedIsPlain(spec.apiServerKey);
    PairsTogether(BeforeKey(spec), Pair(API_SERVER_KEY, Quoted(spec.apiServerKey)), AfterKey(spec), spec);
  }

  lemma PairsTogether(before: seq<Pair>, p: Pair, after: seq<Pair>, spec: EnvSpec)
    requires OtherPairs(before, spec) && OtherPairs(after, spec) && WellFormed(p) && p.key in Owned(spec)
    ensures GoodPairs(before + [p] + after, Owned(spec))
  {
  }

  /** The lines of a merged file, in order. */
  function MergedLines(existing: string, spec: EnvSpec): seq<string> {
    Preserved(existing, spec) + LinesOf(RenderedPairs(spec)) + [""]
  }

  lemma {:induction false} DropIsPrefix(lines: seq<string>)
    ensures DropTrailingEmpty(lines) <= lines
  {
    if lines != [] && lines[|lines| - 1] == "" { DropIsPrefix(lines[..|lines| - 1]); }
  }

  lemma PreservedLines(existing: string, spec: EnvSpec)
    ensures forall line :: line in Preserved(existing, spec) ==>
              line in FileLines(existing) && Keep(line, Owned(spec)) && OneLine(line)
  {
    var kept := KeptLines(FileLines(existing), Owned(spec));
    DropIsPrefix(kept);
    FilterMembers(FileLines(existing), (line: string) => Keep(line, Owned(spec)));
    SplitGivesOneLiners(UnixLines(existing));
    forall line | line in Preserved(existing, spec) ensures line in kept {
      var i :| 0 <= i < |Preserved(existing, spec)| && Preserved(existing, spec)[i] == line;
      assert kept[i] == line;
    }
  }

  lemma {:induction false} RenderedLines(pairs: seq<Pair>, owned: seq<string>)
    requires GoodPairs(pairs, owned)
    ensures |LinesOf(pairs)| == |pairs|
    ensures forall i :: 0 <= i < |pairs| ==> LinesOf(pairs)[i] == LineOf(pairs[i])
  {
    if pairs != [] {
      assert GoodPairs(pairs[1..], owned);
      RenderedLines(pairs[1..], owned);
    }
  }

  lemma GoodLineIsOneLine(p: Pair)
    requires WellFormed(p)
    ensures OneLine(LineOf(p)) && !EndsWith(LineOf(p), "\r") && LineOf(p) != ""
  {
    var line := LineOf(p);
    assert line[|line| - 1] == p.text[|p.text| - 1];
  }

  lemma RenderedOneLiners(spec: EnvSpec)
    requires ValuesAllowed(spec)
    ensures var lines := LinesOf(RenderedPairs(spec)); OneLiners(lines) && NoReturns(lines) && lines != []
  {
    RenderedIsGood(spec);
    var pairs := RenderedPairs(spec);
    RenderedLines(pairs, Owned(spec));
    forall i | 0 <= i < |pairs| ensures OneLine(LinesOf(pairs)[i]) && !EndsWith(LinesOf(pairs)[i], "\r") {
      GoodLineIsOneLine(pairs[i]);
    }
  }

  ghost predicate NoReturns(lines: seq<string>) {
    forall i :: 0 <= i < |lines| ==> !EndsWith(lines[i], "\r")
  }

  lemma {:induction false} JoinConcat(a: seq<string>, b: seq<string>)
    requires a != [] && b != []
    ensures Join(a + b) == Join(a) + "\n" + Join(b)
  {
    if |a| == 1 {
      assert (a + b)[1..] == b;
    } else {
      assert (a + b)[1..] == a[1..] + b;
      JoinConcat(a[1..], b);
    }
  }

  lemma JoinBlocks(a: seq<string>, b: seq<string>)
    requires b != []
    ensures (if a == [] then "" else Join(a) + "\n") + Join(b) == Join(a + b)
  {
    if a == [] {
      assert a + b == b;
    } else {
      JoinConcat(a, b);
    }
  }

  lemma MergedOneLiners(existing: string, spec: EnvSpec)
    requires ValuesAllowed(spec)
    ensures OneLiners(MergedLines(existing, spec))
  {
    var preserved, rendered := Preserved(existing, spec), LinesOf(RenderedPairs(spec));
    PreservedLines(existing, spec);
    RenderedOneLiners(spec);
    forall i | 0 <= i < |preserved| ensures OneLine(preserved[i]) {
      assert preserved[i] in preserved;
    }
    OneLinersConcat(preserved, rendered);
  }

  lemma OneLinersConcat(a: seq<string>, b: seq<string>)
    requires OneLiners(a) && OneLiners(b)
    ensures OneLiners(a + b + [""])
  {
  }

  lemma MergedText(existing: string, spec: EnvSpec)
    requires Merge(existing, spec).Ok?
    ensures ValuesAllowed(spec)
    ensures Merge(existing, spec).value == Join(MergedLines(existing, spec))
  {
    TogetherJoined(Preserved(existing, spec), LinesOf(RenderedPairs(spec)));
  }

  lemma TogetherJoined(preserved: seq<string>, lines: seq<string>)
    ensures Together(preserved, Join(lines + [""])) == Join(preserved + lines + [""])
  {
    JoinBlocks(preserved, lines + [""]);
    assert preserved + (lines + [""]) == preserved + lines + [""];
  }

  /** A merged file is its preserved lines, then the rendered ones, each ended by a line feed. */
  lemma MergedConsistsOf(existing: string, spec: EnvSpec)
    requires Merge(existing, spec).Ok?
    ensures Merge(existing, spec).value == Join(MergedLines(existing, spec))
    ensures Split(Merge(existing, spec).value) == MergedLines(existing, spec)
  {
    MergedText(existing, spec);
    MergedOneLiners(existing, spec);
    SplitJoined(MergedLines(existing, spec));
  }

  function EmptyLines(n: nat): seq<string> { seq(n, _ => "") }

  lemma {:induction false} DropLosesOnlyEmpty(lines: seq<string>)
    ensures exists n: nat :: lines == DropTrailingEmpty(lines) + EmptyLines(n)
  {
    if lines != [] && lines[|lines| - 1] == "" {
      var init := lines[..|lines| - 1];
      DropLosesOnlyEmpty(init);
      var n: nat :| init == DropTrailingEmpty(init) + EmptyLines(n);
      assert lines == DropTrailingEmpty(lines) + EmptyLines(n + 1);
    } else {
      assert lines == DropTrailingEmpty(lines) + EmptyLines(0);
    }
  }

  /** Every line without an owned key survives, in order, except empty lines at the end; then come the spec's own. */
  lemma SurvivorsThenRendered(existing: string, spec: EnvSpec)
    requires Merge(existing, spec).Ok?
    ensures exists n: nat, survivors ::
              && KeptLines(FileLines(existing), Owned(spec)) == survivors + EmptyLines(n)
              && Split(Merge(existing, spec).value) == survivors + LinesOf(RenderedPairs(spec)) + [""]
  {
    MergedConsistsOf(existing, spec);
    DropLosesOnlyEmpty(KeptLines(FileLines(existing), Owned(spec)));
    var n: nat :| KeptLines(FileLines(existing), Owned(spec)) == Preserved(existing, spec) + EmptyLines(n);
    assert Split(Merge(existing, spec).value) == Preserved(existing, spec) + LinesOf(RenderedPairs(spec)) + [""];
  }

  // ------------------------------------------------------------------------------------- a carriage return at the end

  lemma {:induction false} SkipBeforeReturn(s: string)
    ensures SkipBlanks(s + "\r") == if SkipBlanks(s) == "" then "" else SkipBlanks(s) + "\r"
  {
    if s == [] {
      assert s + "\r" == "\r";
      assert SkipBlanks("\r") == SkipBlanks("\r"[1..]);
    } else {
      assert (s + "\r")[1..] == s[1..] + "\r" && (s + "\r")[0] == s[0];
      SkipBeforeReturn(s[1..]);
    }
  }

  lemma {:induction false} WordBeforeReturn(s: string)
    ensures Word(s + "\r") == Word(s)
  {
    if s != [] {
      assert (s + "\r")[1..] == s[1..] + "\r" && (s + "\r")[0] == s[0];
      WordBeforeReturn(s[1..]);
    }
  }

  lemma KeyBeforeReturn(s: string)
    ensures KeyAt(s + "\r") == KeyAt(s)
  {
    WordBeforeReturn(s);
    var n := |Word(s)|;
    assert (s + "\r")[n..] == s[n..] + "\r";
    SkipBeforeReturn(s[n..]);
    var rest := SkipBlanks(s[n..]);
    assert rest != "" ==> (rest + "\r")[0] == rest[0];
  }

  lemma ParseBeforeReturn(line: string)
    ensures ParseAssignment(line + "\r") == ParseAssignment(line)
  {
    var s := SkipBlanks(line);
    SkipBeforeReturn(line);
    if s != "" {
      KeyBeforeReturn(s);
      if |s| >= 6 {
        assert (s + "\r")[6..] == s[6..] + "\r";
        SkipBeforeReturn(s[6..]);
        KeyBeforeReturn(SkipBlanks(s[6..]));
        assert s[6..] == "" ==> SkipBlanks(s[6..]) == "";
        ExportBeforeReturn(s);
      }
    }
  }

  lemma ExportBeforeReturn(s: string)
    requires |s| >= 6
    ensures |s| > 6 ==> HasExport(s + "\r") == HasExport(s)
    ensures |s| == 6 ==> !HasExport(s)
    ensures |s| == 6 ==> (s + "\r")[6..] == "\r"
  {
    assert (s + "\r")[..6] == s[..6];
    assert |s| > 6 ==> (s + "\r")[6] == s[6];
  }

  lemma {:induction false} StartBeforeReturn(s: string, word: string)
    requires '\r' !in word
    ensures StartsWithWord(s + "\r", word) == StartsWithWord(s, word)
  {
    var t := s + "\r";
    if |word| <= |s| {
      assert t[..|word|] == s[..|word|];
      assert |word| < |s| ==> t[|word|] == s[|word|];
    } else {
      assert word[|s|] in word && t[|s|] == '\r';
    }
  }

  lemma MentionsBeforeReturn(line: string, key: string)
    requires '\r' !in key && key != ""
    ensures Mentions(line + "\r", key) == Mentions(line, key)
  {
    var s := SkipBlanks(line);
    SkipBeforeReturn(line);
    if s != "" {
      StartBeforeReturn(s, key);
      if |s| >= 6 {
        ExportBeforeReturn(s);
        SkipBeforeReturn(s[6..]);
        assert |s| > 6 ==> (s + "\r")[6..] == s[6..] + "\r";
        StartBeforeReturn(SkipBlanks(s[6..]), key);
        assert SkipBlanks("\r") == SkipBlanks("\r"[1..]) == "";
      }
    }
  }

  lemma {:induction false} ManagedKeysHoldNoReturn(i: nat)
    requires i < |MANAGED_KEYS|
    ensures '\r' !in MANAGED_KEYS[i] && MANAGED_KEYS[i] != ""
  {
  }

  lemma AcceptableBeforeReturn(s: string)
    ensures Acceptable(s + "\r") == Acceptable(s)
  {
    ParseBeforeReturn(s);
    assert (s + "\r")[..|s|] == s;
    forall i | 0 <= i < |MANAGED_KEYS| ensures Mentions(s + "\r", MANAGED_KEYS[i]) == Mentions(s, MANAGED_KEYS[i]) {
      ManagedKeysHoldNoReturn(i);
      MentionsBeforeReturn(s, MANAGED_KEYS[i]);
    }
  }

  /** A carriage return at the end of a line changes nothing about how the line is treated. */
  lemma ReturnIsInvisible(line: string, owned: seq<string>)
    ensures Keep(StripReturn(line), owned) == Keep(line, owned)
    ensures Acceptable(StripReturn(line)) == Acceptable(line)
  {
    var s := StripReturn(line);
    if s != line {
      assert line == s + "\r";
      ParseBeforeReturn(s);
      AcceptableBeforeReturn(s);
    }
  }

  function StripAll(lines: seq<string>): seq<string> {
    if lines == [] then [] else [StripReturn(lines[0])] + StripAll(lines[1..])
  }

  lemma {:induction false} StripAllAt(lines: seq<string>)
    ensures |StripAll(lines)| == |lines|
    ensures forall i :: 0 <= i < |lines| ==> StripAll(lines)[i] == StripReturn(lines[i])
  {
    if lines != [] { StripAllAt(lines[1..]); }
  }

  lemma {:induction false} StripConcat(a: seq<string>, b: seq<string>)
    ensures StripAll(a + b) == StripAll(a) + StripAll(b)
  {
    if a == [] {
      assert a + b == b;
    } else {
      assert (a + b)[1..] == a[1..] + b;
      StripConcat(a[1..], b);
    }
  }

  lemma {:induction false} StrippedButLast(a: seq<string>, last: string)
    ensures Stripped(a + [last]) == StripAll(a) + [last]
  {
    if a != [] {
      assert (a + [last])[1..] == a[1..] + [last];
      StrippedButLast(a[1..], last);
    }
  }

  lemma {:induction false} NothingToStrip(lines: seq<string>)
    requires NoReturns(lines)
    ensures StripAll(lines) == lines
  {
    if lines != [] {
      assert forall i :: 0 <= i < |lines[1..]| ==> lines[1..][i] == lines[i + 1];
      NothingToStrip(lines[1..]);
    }
  }

  lemma {:induction false} FilterStripped(lines: seq<string>, owned: seq<string>)
    ensures KeptLines(StripAll(lines), owned) == StripAll(KeptLines(lines, owned))
  {
    if lines != [] {
      ReturnIsInvisible(lines[0], owned);
      FilterStripped(lines[1..], owned);
    }
  }

  // ------------------------------------------------------------------------------------------ empty lines at the end

  lemma EmptyIsKept(owned: seq<string>)
    ensures Keep("", owned) && Acceptable("")
  {
    assert SkipBlanks("") == "";
    assert Word("") == "";
  }

  lemma {:induction false} DropThenFilter(lines: seq<string>, owned: seq<string>)
    ensures DropTrailingEmpty(KeptLines(DropTrailingEmpty(lines), owned)) == DropTrailingEmpty(KeptLines(lines, owned))
  {
    if lines != [] && lines[|lines| - 1] == "" {
      var init := lines[..|lines| - 1];
      DropThenFilter(init, owned);
      assert lines == init + [""];
      KeptConcat(init, [""], owned);
      EmptyIsKept(owned);
      KeptOne("", owned);
      DropLast(KeptLines(init, owned));
    }
  }

  lemma DropLast(lines: seq<string>)
    ensures DropTrailingEmpty(lines + [""]) == DropTrailingEmpty(lines)
  {
    assert (lines + [""])[..|lines|] == lines;
  }

  lemma {:induction false} DropThenStrip(lines: seq<string>)
    ensures DropTrailingEmpty(StripAll(DropTrailingEmpty(lines))) == DropTrailingEmpty(StripAll(lines))
  {
    if lines != [] && lines[|lines| - 1] == "" {
      var init := lines[..|lines| - 1];
      DropThenStrip(init);
      assert lines == init + [""];
      StripConcat(init, [""]);
      assert StripAll([""]) == [""];
      DropLast(StripAll(init));
    }
  }

  lemma {:induction false} DropAgain(lines: seq<string>)
    ensures DropTrailingEmpty(DropTrailingEmpty(lines)) == DropTrailingEmpty(lines)
  {
    if lines != [] && lines[|lines| - 1] == "" { DropAgain(lines[..|lines| - 1]); }
  }

  lemma {:induction false} FilterTwice(lines: seq<string>, fewer: seq<string>, more: seq<string>)
    requires forall k :: k in fewer ==> k in more
    ensures KeptLines(KeptLines(lines, fewer), more) == KeptLines(lines, more)
  {
    if lines != [] { FilterTwice(lines[1..], fewer, more); }
  }

  // ---------------------------------------------------------------------------------------- one merge absorbs another

  /** Everything the first merge owns, the second owns too. */
  predicate Covers(more: EnvSpec, fewer: EnvSpec) { more.ManagedEnv? || fewer.NativeEnv? }

  lemma CoversMeansOwns(more: EnvSpec, fewer: EnvSpec)
    requires Covers(more, fewer)
    ensures forall k :: k in Owned(fewer) ==> k in Owned(more)
  {
    assert MANAGED_KEYS[5] in MANAGED_KEYS && MANAGED_KEYS[6] in MANAGED_KEYS && MANAGED_KEYS[7] in MANAGED_KEYS;
  }

  lemma {:induction false} WordOfIdentifier(key: string, rest: string)
    requires forall c :: c in key ==> IsWord(c)
    requires rest == "" || !IsWord(rest[0])
    ensures Word(key + rest) == key
  {
    if key == "" {
      assert key + rest == rest;
    } else {
      assert (key + rest)[1..] == key[1..] + rest && key[0] in key;
      assert forall c :: c in key[1..] ==> c in key;
      WordOfIdentifier(key[1..], rest);
    }
  }

  lemma NoExport(key: string, text: string)
    requires IsIdentifier(key)
    ensures !HasExport(key + "=" + text)
  {
    var line, n := key + "=" + text, |key|;
    assert n > 6 ==> line[6] == key[6] && key[6] in key;
    assert n < 6 ==> line[n] == '=' && "export"[n] != '=';
  }

  /** A line `KEY=…` is read as an assignment to that key. */
  lemma ParseOwn(p: Pair)
    requires IsIdentifier(p.key)
    ensures ParseAssignment(LineOf(p)) == Some(p.key)
  {
    var line := LineOf(p);
    assert line == p.key + ("=" + p.text) && line[0] == p.key[0] && p.key[0] in p.key;
    WordOfIdentifier(p.key, "=" + p.text);
    assert line[|p.key|..] == "=" + p.text;
    NoExport(p.key, p.text);
  }

  lemma GoodLineIsOwned(p: Pair, owned: seq<string>)
    requires WellFormed(p) && p.key in owned
    ensures !Keep(LineOf(p), owned) && Acceptable(LineOf(p))
  {
    ParseOwn(p);
    var line := LineOf(p);
    assert line[|line| - 1] == p.text[|p.text| - 1];
  }

  lemma {:induction false} RenderedAreDropped(pairs: seq<Pair>, owned: seq<string>)
    requires GoodPairs(pairs, owned)
    ensures KeptLines(LinesOf(pairs), owned) == []
    ensures AllAcceptable(LinesOf(pairs))
  {
    if pairs != [] {
      assert GoodPairs(pairs[1..], owned);
      RenderedAreDropped(pairs[1..], owned);
      GoodLineIsOwned(pairs[0], owned);
    }
  }

  /** What the next merge reads: the preserved lines without one carriage return each, then the rendered ones. */
  lemma MergedFileLines(existing: string, spec: EnvSpec)
    requires Merge(existing, spec).Ok?
    ensures FileLines(Merge(existing, spec).value)
         == StripAll(Preserved(existing, spec)) + LinesOf(RenderedPairs(spec)) + [""]
  {
    var preserved, rendered := Preserved(existing, spec), LinesOf(RenderedPairs(spec));
    MergedConsistsOf(existing, spec);
    MergedOneLiners(existing, spec);
    UnixJoined(MergedLines(existing, spec));
    StrippedButLast(preserved + rendered, "");
    StripConcat(preserved, rendered);
    RenderedOneLiners(spec);
    NothingToStrip(rendered);
  }

  lemma {:induction false} AcceptableStripped(lines: seq<string>)
    requires AllAcceptable(lines)
    ensures AllAcceptable(StripAll(lines))
  {
    if lines != [] {
      assert forall i :: 0 <= i < |lines[1..]| ==> lines[1..][i] == lines[i + 1];
      AcceptableStripped(lines[1..]);
      ReturnIsInvisible(lines[0], []);
    }
  }

  lemma PreservedAcceptable(existing: string, spec: EnvSpec)
    requires Merge(existing, spec).Ok?
    ensures AllAcceptable(Preserved(existing, spec))
  {
    PreservedLines(existing, spec);
    var preserved, lines := Preserved(existing, spec), FileLines(existing);
    forall i | 0 <= i < |preserved| ensures Acceptable(preserved[i]) {
      assert preserved[i] in preserved;
      var j :| 0 <= j < |lines| && lines[j] == preserved[i];
    }
  }

  lemma AcceptableConcat(a: seq<string>, b: seq<string>)
    requires AllAcceptable(a) && AllAcceptable(b)
    ensures AllAcceptable(a + b + [""])
  {
    EmptyIsKept([]);
  }

  lemma MergedIsAcceptable(existing: string, spec: EnvSpec)
    requires Merge(existing, spec).Ok?
    ensures AllAcceptable(FileLines(Merge(existing, spec).value))
  {
    MergedFileLines(existing, spec);
    PreservedAcceptable(existing, spec);
    AcceptableStripped(Preserved(existing, spec));
    RenderedIsGood(spec);
    RenderedAreDropped(RenderedPairs(spec), Owned(spec));
    AcceptableConcat(StripAll(Preserved(existing, spec)), LinesOf(RenderedPairs(spec)));
  }

  lemma KeptOfMerged(existing: string, first: EnvSpec, second: EnvSpec)
    requires Merge(existing, first).Ok? && Covers(second, first)
    ensures KeptLines(FileLines(Merge(existing, first).value), Owned(second))
         == StripAll(KeptLines(Preserved(existing, first), Owned(second))) + [""]
  {
    MergedFileLines(existing, first);
    KeptOfBlocks(Preserved(existing, first), first, second);
  }

  lemma KeptOfBlocks(preserved: seq<string>, first: EnvSpec, second: EnvSpec)
    requires Covers(second, first) && ValuesAllowed(first)
    ensures KeptLines(StripAll(preserved) + LinesOf(RenderedPairs(first)) + [""], Owned(second))
         == StripAll(KeptLines(preserved, Owned(second))) + [""]
  {
    CoversMeansOwns(second, first);
    RenderedIsGood(first);
    RenderedAreDropped(RenderedPairs(first), Owned(second));
    KeptWithoutMiddle(preserved, LinesOf(RenderedPairs(first)), Owned(second));
  }

  lemma KeptWithoutMiddle(preserved: seq<string>, middle: seq<string>, owned: seq<string>)
    requires KeptLines(middle, owned) == []
    ensures KeptLines(StripAll(preserved) + middle + [""], owned) == StripAll(KeptLines(preserved, owned)) + [""]
  {
    KeptBlocks(StripAll(preserved), middle, owned);
    FilterStripped(preserved, owned);
  }

  lemma KeptBlocks(a: seq<string>, b: seq<string>, owned: seq<string>)
    ensures KeptLines(a + b + [""], owned) == KeptLines(a, owned) + KeptLines(b, owned) + [""]
  {
    KeptConcat(a + b, [""], owned);
    KeptConcat(a, b, owned);
    EmptyIsKept(owned);
    KeptOne("", owned);
  }

  /** Empty lines at the end may be dropped early or late. */
  lemma DropsCommute(lines: seq<string>, owned: seq<string>)
    ensures DropTrailingEmpty(StripAll(KeptLines(DropTrailingEmpty(lines), owned)))
         == DropTrailingEmpty(StripAll(DropTrailingEmpty(KeptLines(lines, owned))))
  {
    DropThenStrip(KeptLines(DropTrailingEmpty(lines), owned));
    DropThenFilter(lines, owned);
    DropThenStrip(KeptLines(lines, owned));
  }

  /** What a second merge preserves of a merged file. */
  lemma PreservedAgain(existing: string, first: EnvSpec, second: EnvSpec)
    requires Merge(existing, first).Ok? && Covers(second, first)
    ensures Preserved(Merge(existing, first).value, second) == DropTrailingEmpty(StripAll(Preserved(existing, second)))
  {
    var once := KeptLines(FileLines(existing), Owned(first));
    KeptOfMerged(existing, first, second);
    DropLast(StripAll(KeptLines(Preserved(existing, first), Owned(second))));
    DropsCommute(once, Owned(second));
    CoversMeansOwns(second, first);
    FilterTwice(FileLines(existing), Owned(first), Owned(second));
  }

  lemma PreservedDetermines(existing: string, other: string, spec: EnvSpec)
    requires Merge(existing, spec).Ok? && Merge(other, spec).Ok?
    ensures Merge(existing, spec) == Merge(other, spec) <==> Preserved(existing, spec) == Preserved(other, spec)
  {
    MergedConsistsOf(existing, spec);
    MergedConsistsOf(other, spec);
    if Merge(existing, spec) == Merge(other, spec) {
      SameTail(Preserved(existing, spec), Preserved(other, spec), LinesOf(RenderedPairs(spec)));
    }
  }

  lemma SameTail(a: seq<string>, b: seq<string>, tail: seq<string>)
    requires a + tail + [""] == b + tail + [""]
    ensures a == b
  {
    assert a == (a + tail + [""])[..|a|] && b == (b + tail + [""])[..|b|];
  }

  lemma StripChangesExactly(lines: seq<string>)
    requires DropTrailingEmpty(lines) == lines
    ensures DropTrailingEmpty(StripAll(lines)) == lines <==> NoReturns(lines)
  {
    StripAllAt(lines);
    if NoReturns(lines) {
      NothingToStrip(lines);
    } else {
      var i :| 0 <= i < |lines| && EndsWith(lines[i], "\r");
      DropIsPrefix(StripAll(lines));
      assert |StripAll(lines)[i]| < |lines[i]|;
    }
  }

  ghost predicate Without(lines: seq<string>, c: char) { forall i :: 0 <= i < |lines| ==> c !in lines[i] }

  lemma {:induction false} JoinWithout(lines: seq<string>, c: char)
    requires c != '\n' && Without(lines, c)
    ensures c !in Join(lines)
  {
    if |lines| > 1 {
      assert forall i :: 1 <= i < |lines| ==> lines[i] == lines[1..][i - 1];
      JoinWithout(lines[1..], c);
    }
  }

  lemma {:induction false} SplitWithoutNul(s: string)
    requires '\0' !in s
    ensures Without(Split(s), '\0') && '\0' !in UnixLines(s)
    decreases |s|
  {
    if s != [] {
      assert '\0' !in s[1..] && s[0] in s;
      SplitWithoutNul(s[1..]);
      if |s| > 1 { SplitWithoutNul(s[2..]); }
    }
  }

  lemma PairWithoutControl(p: Pair, c: char)
    requires WellFormed(p) && IsControl(c)
    ensures c !in LineOf(p)
  {
    assert !IsWord(c);
  }

  lemma RenderedWithoutControl(spec: EnvSpec)
    requires ValuesAllowed(spec)
    ensures Without(LinesOf(RenderedPairs(spec)), '\0') && Without(LinesOf(RenderedPairs(spec)), '\r')
  {
    RenderedIsGood(spec);
    var pairs := RenderedPairs(spec);
    RenderedLines(pairs, Owned(spec));
    forall i | 0 <= i < |pairs| ensures '\0' !in LinesOf(pairs)[i] && '\r' !in LinesOf(pairs)[i] {
      PairWithoutControl(pairs[i], '\0');
      PairWithoutControl(pairs[i], '\r');
    }
  }

  lemma MergedWithoutNul(existing: string, spec: EnvSpec)
    requires Merge(existing, spec).Ok?
    ensures '\0' !in Merge(existing, spec).value
  {
    SplitWithoutNul(existing);
    SplitWithoutNul(UnixLines(existing));
    PreservedLines(existing, spec);
    var preserved, lines := Preserved(existing, spec), FileLines(existing);
    forall i | 0 <= i < |preserved| ensures '\0' !in preserved[i] {
      assert preserved[i] in preserved;
      var j :| 0 <= j < |lines| && lines[j] == preserved[i];
    }
    RenderedWithoutControl(spec);
    MergedConsistsOf(existing, spec);
    assert Without(MergedLines(existing, spec), '\0');
    JoinWithout(MergedLines(existing, spec), '\0');
  }

  /**
   Merging for one spec and then for another that owns at least as much is the same as merging for the second alone,
   exactly when no line the second keeps ends in a carriage return of its own.
   */
  lemma MergeAbsorbs(existing: string, first: EnvSpec, second: EnvSpec)
    requires Merge(existing, first).Ok? && Covers(second, first) && ValuesAllowed(second)
    requires Utf8Size(Merge(existing, first).value) <= MAX_ENV_BYTES
    ensures Merge(existing, second).Ok? && Merge(Merge(existing, first).value, second).Ok?
    ensures Merge(Merge(existing, first).value, second) == Merge(existing, second)
       <==> NoReturns(Preserved(existing, second))
  {
    var merged := Merge(existing, first).value;
    MergedWithoutNul(existing, first);
    MergedIsAcceptable(existing, first);
    assert Merge(merged, second).Ok?;
    PreservedAgain(existing, first, second);
    DropAgain(KeptLines(FileLines(existing), Owned(second)));
    StripChangesExactly(Preserved(existing, second));
    PreservedDetermines(merged, existing, second);
  }

  /** A line that ends in a carriage return of its own. */
  const RETURNING := "A=1\r"

  lemma ReturningParses()
    ensures ParseAssignment(RETURNING) == Some("A")
  {
    var rest := RETURNING[1..];
    assert rest == "=1\r" && RETURNING[0] == 'A';
    assert Word(rest) == "" && Word(RETURNING) == ['A'];
    assert SkipBlanks(RETURNING) == RETURNING && SkipBlanks(rest) == rest;
    assert !HasExport(RETURNING);
  }

  lemma ReturningEnds()
    ensures DropTrailingBlanks(RETURNING) == "A=1"
  {
    var trimmed := RETURNING[..3];
    assert trimmed == "A=1" && trimmed[2] == '1' && RETURNING[3] == '\r';
    assert DropTrailingBlanks(trimmed) == trimmed;
    assert DropTrailingBlanks(RETURNING) == DropTrailingBlanks(RETURNING[..3]);
  }

  lemma EmptyLineIsAcceptable()
    ensures ParseAssignment("") == None && Acceptable("")
  {
    forall i | 0 <= i < |MANAGED_KEYS| ensures !Mentions("", MANAGED_KEYS[i]) {
      assert MANAGED_KEYS[i] != "";
    }
  }

  lemma ReturningLine()
    ensures ParseAssignment(RETURNING) == Some("A") && Acceptable(RETURNING)
    ensures ParseAssignment("") == None && Acceptable("")
  {
    ReturningParses();
    ReturningEnds();
    EmptyLineIsAcceptable();
  }

  lemma ReturningFile(spec: EnvSpec)
    ensures FileLines(RETURNING + "\r\n") == [RETURNING, ""] && Preserved(RETURNING + "\r\n", spec) == [RETURNING]
  {
    var line := RETURNING + "\r";
    assert RETURNING + "\r\n" == line + (['\n'] + "");
    UnixAfterLine(line, "");
    SplitUnixLine(line, "");
    assert StripReturn(line) == RETURNING;
    ReturningLine();
    assert forall k :: k in Owned(spec) ==> k != "A";
    KeptOne(RETURNING, Owned(spec));
    KeptOne("", Owned(spec));
    KeptConcat([RETURNING], [""], Owned(spec));
    assert [RETURNING] + [""] == [RETURNING, ""];
    var kept := [RETURNING, ""];
    assert kept[..1] == [RETURNING];
    assert DropTrailingEmpty(kept) == DropTrailingEmpty(kept[..1]) == [RETURNING];
  }

  /** A file at which it fails, whatever the spec: one line that ends in two carriage returns. */
  lemma LoneReturnIsLost(spec: EnvSpec)
    requires ValuesAllowed(spec)
    ensures Merge("A=1\r\r\n", spec).Ok?
    ensures Merge(Merge("A=1\r\r\n", spec).value, spec) != Merge("A=1\r\r\n", spec)
  {
    ReturningMerges(spec, "A=1\r\r\n");
  }

  lemma ReturningMerges(spec: EnvSpec, file: string)
    requires ValuesAllowed(spec) && file == RETURNING + "\r\n"
    ensures Merge(file, spec).Ok? && Merge(Merge(file, spec).value, spec) != Merge(file, spec)
  {
    ReturningFits(file);
    ReturningLine();
    ReturningFile(spec);
    assert AllAcceptable(FileLines(file));
    var merged := Merge(file, spec);
    if FitsFile(merged.value) {
      MergeAbsorbs(file, spec, spec);
      assert EndsWith(Preserved(file, spec)[0], "\r");
    }
  }

  lemma ReturningFits(file: string)
    requires file == RETURNING + "\r\n"
    ensures FitsFile(file)
  {
    SizeIsBounded(file);
  }

  lemma {:induction false} SizeIsBounded(s: string)
    ensures Utf8Size(s) <= 4 * |s|
  {
    if s != [] { SizeIsBounded(s[..|s| - 1]); }
  }

  /** Every carriage return is followed by a line feed. */
  predicate NoLoneReturn(s: string) {
    forall i :: 0 <= i < |s| && s[i] == '\r' ==> i + 1 < |s| && s[i + 1] == '\n'
  }

  lemma {:induction false} UnixRemovesReturns(s: string)
    requires NoLoneReturn(s)
    ensures '\r' !in UnixLines(s)
    decreases |s|
  {
    if |s| > 1 && s[0] == '\r' && s[1] == '\n' {
      assert forall i :: 0 <= i < |s[2..]| ==> s[2..][i] == s[i + 2];
      UnixRemovesReturns(s[2..]);
    } else if s != [] {
      assert forall i :: 0 <= i < |s[1..]| ==> s[1..][i] == s[i + 1];
      UnixRemovesReturns(s[1..]);
    }
  }

  lemma {:induction false} SplitWithoutReturns(s: string)
    requires '\r' !in s
    ensures forall line :: line in Split(s) ==> '\r' !in line
  {
    if s != [] {
      assert '\r' !in s[1..] && s[0] in s;
      SplitWithoutReturns(s[1..]);
    }
  }

  lemma NoReturnAtEnd(line: string)
    requires '\r' !in line
    ensures !EndsWith(line, "\r")
  {
    assert line != "" ==> line[|line| - 1] in line;
  }

  lemma NoReturnsPreserved(existing: string, spec: EnvSpec)
    requires NoLoneReturn(existing)
    ensures NoReturns(Preserved(existing, spec))
  {
    UnixRemovesReturns(existing);
    SplitWithoutReturns(UnixLines(existing));
    PreservedLines(existing, spec);
    var preserved := Preserved(existing, spec);
    forall i | 0 <= i < |preserved| ensures !EndsWith(preserved[i], "\r") {
      assert preserved[i] in preserved;
      NoReturnAtEnd(preserved[i]);
    }
  }

  /** A merge leaves a file without any carriage return when the file it started from had no lone one. */
  lemma MergedStaysClean(existing: string, spec: EnvSpec)
    requires Merge(existing, spec).Ok? && NoLoneReturn(existing)
    ensures NoLoneReturn(Merge(existing, spec).value)
  {
    UnixRemovesReturns(existing);
    SplitWithoutReturns(UnixLines(existing));
    PreservedLines(existing, spec);
    var preserved := Preserved(existing, spec);
    forall i | 0 <= i < |preserved| ensures '\r' !in preserved[i] {
      assert preserved[i] in preserved;
    }
    RenderedWithoutControl(spec);
    MergedConsistsOf(existing, spec);
    assert Without(MergedLines(existing, spec), '\r');
    JoinWithout(MergedLines(existing, spec), '\r');
  }

  /** The condition on the file itself: a file with no lone carriage return is merged the same way once or twice. */
  lemma CleanFilesAbsorb(existing: string, first: EnvSpec, second: EnvSpec)
    requires Merge(existing, first).Ok? && Covers(second, first)
    requires Utf8Size(Merge(existing, first).value) <= MAX_ENV_BYTES && NoLoneReturn(existing)
    ensures Merge(Merge(existing, first).value, second) == Merge(existing, second)
  {
    if ValuesAllowed(second) {
      MergeAbsorbs(existing, first, second);
      NoReturnsPreserved(existing, second);
    } else {
      MergedWithoutNul(existing, first);
      MergedIsAcceptable(existing, first);
    }
  }

  // ------------------------------------------------------------------------------------------------------ the reader

  const MAX_READ_BYTES := 64 * 1024

  /** The API server keys the reader accepts. */
  predicate AcceptedKey(s: string) {
    && StartsWith(s, "bruno_agent_")
    && 32 <= |s| - 12 <= 247
    && forall c :: c in s[12..] ==> c == '-' || IsWord(c)
  }

  /** The characters that a dot does not match. */
  predicate IsLineEnd(c: char) { c == '\n' || c == '\r' || c == '\U{2028}' || c == '\U{2029}' }

  /** `/^API_SERVER_KEY=(.*)$/` */
  predicate IsKeyLine(line: string) {
    StartsWith(line, API_SERVER_KEY + "=") && forall c :: c in line[|API_SERVER_KEY| + 1..] ==> !IsLineEnd(c)
  }

  function HexDigit(c: char): Option<nat> {
    if '0' <= c <= '9' then Some((c - '0') as nat)
    else if 'a' <= c <= 'f' then Some((c - 'a') as nat + 10)
    else if 'A' <= c <= 'F' then Some((c - 'A') as nat + 10)
    else None
  }

  /** The number four hexadecimal digits stand for. */
  function HexCode(s: string): Option<nat>
    requires |s| == 4
  {
    var a, b, c, d := HexDigit(s[0]), HexDigit(s[1]), HexDigit(s[2]), HexDigit(s[3]);
    if a.Some? && b.Some? && c.Some? && d.Some? then Some(((a.value * 16 + b.value) * 16 + c.value) * 16 + d.value)
    else None
  }

  function SimpleEscape(c: char): Option<char> {
    match c
    case '"' => Some('"')
    case '\\' => Some('\\')
    case '/' => Some('/')
    case 'b' => Some('\U{8}')
    case 'f' => Some('\U{C}')
    case 'n' => Some('\n')
    case 'r' => Some('\r')
    case 't' => Some('\t')
    case _ => None
  }

  function Prepend(c: char, rest: Option<string>): Option<string> {
    if rest.None? then None else Some([c] + rest.value)
  }

  /** The rest of a JSON string (section 7 of RFC 8259) after its opening quote; the closing quote must come last. */
  function JsonText(s: string): Option<string>
    decreases |s|
  {
    if s == [] then None
    else if s[0] == '"' then (if |s| == 1 then Some("") else None)
    else if s[0] == '\\' then
      if |s| < 2 then None
      else if s[1] == 'u' then
        if |s| < 6 then None
        else
          var code := HexCode(s[2..6]);
          if code.None? || 0xD800 <= code.value < 0xE000 || code.value > 0xFFFF then None
          else Prepend(code.value as char, JsonText(s[6..]))
      else
        var c := SimpleEscape(s[1]);
        if c.None? then None else Prepend(c.value, JsonText(s[2..]))
    else if s[0] < ' ' then None
    else Prepend(s[0], JsonText(s[1..]))
  }

  lemma EscapeStep(c: char, rest: string)
    requires c == '"' || c == '\\'
    ensures JsonText(['\\', c] + rest) == Prepend(c, JsonText(rest))
  {
    assert (['\\', c] + rest)[2..] == rest;
  }

  lemma PlainStep(c: char, rest: string)
    requires c != '"' && c != '\\' && c >= ' '
    ensures JsonText([c] + rest) == Prepend(c, JsonText(rest))
  {
    assert ([c] + rest)[1..] == rest;
  }

  lemma EscapedThen(s: string, after: string)
    requires s != []
    ensures Escaped(s) + after ==
            (if s[0] == '"' || s[0] == '\\' then ['\\', s[0]] else [s[0]]) + (Escaped(s[1..]) + after)
  {
  }

  /** Reading back what was quoted. */
  lemma {:induction false} UnquoteQuoted(s: string)
    requires NoControl(s)
    ensures JsonText(Escaped(s) + "\"") == Some(s)
  {
    if s != [] {
      assert s[0] in s && forall c :: c in s[1..] ==> c in s;
      UnquoteQuoted(s[1..]);
      EscapedThen(s, "\"");
      var rest := Escaped(s[1..]) + "\"";
      if s[0] == '"' || s[0] == '\\' { EscapeStep(s[0], rest); } else { PlainStep(s[0], rest); }
      assert s == [s[0]] + s[1..];
    }
  }

  /** The text after `API_SERVER_KEY=`: a JSON string when it starts or ends with a quote, itself otherwise. */
  function KeyText(text: string): Option<string> {
    if StartsWith(text, "\"") || EndsWith(text, "\"") then
      if StartsWith(text, "\"") && EndsWith(text, "\"") then JsonText(text[1..]) else None
    else Some(text)
  }

  function AfterEquals(line: string): string {
    if |line| <= |API_SERVER_KEY| then "" else line[|API_SERVER_KEY| + 1..]
  }

  function KeyLines(lines: seq<string>): seq<string> {
    Filter(lines, (line: string) => IsKeyLine(line))
  }

  /** `readProjectedApiServerKey`, from the content of the file on. */
  function ReadKey(content: string): Option<string> {
    if Utf8Size(content) > MAX_READ_BYTES then None
    else
      var assignments := KeyLines(FileLines(content));
      if |assignments| != 1 then None
      else
        var value := KeyText(AfterEquals(assignments[0]));
        if value.Some? && AcceptedKey(value.value) then value else None
  }

  lemma KeyLineIsOwned(line: string)
    requires IsKeyLine(line)
    ensures ParseAssignment(line) == Some(API_SERVER_KEY)
  {
    var p := Pair(API_SERVER_KEY, AfterEquals(line));
    assert line == LineOf(p);
    ServerKeyIsOwned(NativeEnv(""));
    ParseOwn(p);
  }

  lemma KeptIsNoKeyLine(line: string, spec: EnvSpec)
    requires Keep(line, Owned(spec))
    ensures !IsKeyLine(StripReturn(line))
  {
    ServerKeyIsOwned(spec);
    ReturnIsInvisible(line, Owned(spec));
    if IsKeyLine(StripReturn(line)) { KeyLineIsOwned(StripReturn(line)); }
  }

  lemma OtherPairIsNoKeyLine(p: Pair, spec: EnvSpec)
    requires OtherPair(p, spec)
    ensures !IsKeyLine(LineOf(p))
  {
    ParseOwn(p);
    if IsKeyLine(LineOf(p)) { KeyLineIsOwned(LineOf(p)); }
  }

  lemma {:induction false} NoKeyLines(lines: seq<string>)
    requires forall i :: 0 <= i < |lines| ==> !IsKeyLine(lines[i])
    ensures KeyLines(lines) == []
  {
    if lines != [] {
      assert forall i :: 0 <= i < |lines[1..]| ==> lines[1..][i] == lines[i + 1];
      NoKeyLines(lines[1..]);
    }
  }

  lemma PreservedHasNoKeyLine(existing: string, spec: EnvSpec)
    ensures KeyLines(StripAll(Preserved(existing, spec))) == []
  {
    var preserved := Preserved(existing, spec);
    PreservedLines(existing, spec);
    StripAllAt(preserved);
    forall i | 0 <= i < |preserved| ensures !IsKeyLine(StripAll(preserved)[i]) {
      assert preserved[i] in preserved;
      KeptIsNoKeyLine(preserved[i], spec);
    }
    NoKeyLines(StripAll(preserved));
  }

  lemma {:induction false} LinesConcat(a: seq<Pair>, b: seq<Pair>)
    ensures LinesOf(a + b) == LinesOf(a) + LinesOf(b)
  {
    if a == [] {
      assert a + b == b;
    } else {
      assert (a + b)[1..] == a[1..] + b;
      LinesConcat(a[1..], b);
    }
  }

  lemma {:induction false} OtherPairsHaveNoKeyLine(pairs: seq<Pair>, spec: EnvSpec)
    requires OtherPairs(pairs, spec)
    ensures KeyLines(LinesOf(pairs)) == []
  {
    if pairs != [] {
      assert OtherPairs(pairs[1..], spec);
      OtherPairIsNoKeyLine(pairs[0], spec);
      OtherPairsHaveNoKeyLine(pairs[1..], spec);
    }
  }

  lemma KeyLinesConcat(a: seq<string>, b: seq<string>)
    ensures KeyLines(a + b) == KeyLines(a) + KeyLines(b)
  {
    FilterConcat(a, b, (line: string) => IsKeyLine(line));
  }

  lemma KeyLinesOne(line: string)
    ensures KeyLines([line]) == if IsKeyLine(line) then [line] else []
  {
    FilterOne(line, (line: string) => IsKeyLine(line));
  }

  function KeyLine(spec: EnvSpec): string { LineOf(Pair(API_SERVER_KEY, Quoted(spec.apiServerKey))) }

  lemma RenderedKeyLines(spec: EnvSpec)
    requires ValuesAllowed(spec)
    ensures KeyLines(LinesOf(RenderedPairs(spec))) == KeyLines([KeyLine(spec)])
  {
    var p := Pair(API_SERVER_KEY, Quoted(spec.apiServerKey));
    LinesConcat(BeforeKey(spec) + [p], AfterKey(spec));
    LinesConcat(BeforeKey(spec), [p]);
    assert LinesOf([p]) == [KeyLine(spec)] by { assert LinesOf([p][1..]) == []; }
    KeyLinesConcat(LinesOf(BeforeKey(spec)) + [KeyLine(spec)], LinesOf(AfterKey(spec)));
    KeyLinesConcat(LinesOf(BeforeKey(spec)), [KeyLine(spec)]);
    BeforeIsGood(spec);
    AfterIsGood(spec);
    OtherPairsHaveNoKeyLine(BeforeKey(spec), spec);
    OtherPairsHaveNoKeyLine(AfterKey(spec), spec);
  }

  /** The only assignment to the API server key in a merged file is the rendered one, whatever the file held before. */
  lemma MergedKeyLines(existing: string, spec: EnvSpec)
    requires Merge(existing, spec).Ok?
    ensures KeyLines(FileLines(Merge(existing, spec).value)) == KeyLines([KeyLine(spec)])
  {
    var stripped, rendered := StripAll(Preserved(existing, spec)), LinesOf(RenderedPairs(spec));
    MergedFileLines(existing, spec);
    KeyLinesConcat(stripped + rendered, [""]);
    KeyLinesConcat(stripped, rendered);
    KeyLinesOne("");
    PreservedHasNoKeyLine(existing, spec);
    RenderedKeyLines(spec);
  }

  lemma {:induction false} EscapedLetters(s: string)
    ensures forall c :: c in Escaped(s) ==> c in s || c == '\\'
  {
    if s != [] { EscapedLetters(s[1..]); }
  }

  lemma AcceptedKeyFitsLine(key: string)
    requires AcceptedKey(key)
    ensures forall c :: c in Quoted(key) ==> !IsLineEnd(c)
  {
    EscapedLetters(key);
    assert key == "bruno_agent_" + key[12..];
    assert forall c :: c in key ==> c in "bruno_agent_" || c in key[12..];
  }

  lemma KeyTextOfQuoted(key: string)
    requires NoControl(key)
    ensures KeyText(Quoted(key)) == Some(key)
  {
    UnquoteQuoted(key);
    assert Quoted(key)[1..] == Escaped(key) + "\"";
  }

  /**
   The printer and its reader: after any successful merge the reader finds the spec's own key, exactly when the key has
   the accepted shape and the file is within the reader's limit; otherwise it finds nothing.
   */
  lemma ReaderFindsKey(existing: string, spec: EnvSpec)
    requires Merge(existing, spec).Ok?
    ensures var merged := Merge(existing, spec).value;
            ReadKey(merged) == if Utf8Size(merged) <= MAX_READ_BYTES && AcceptedKey(spec.apiServerKey)
                               then Some(spec.apiServerKey) else None
  {
    var line := KeyLine(spec);
    MergedKeyLines(existing, spec);
    KeyLinesOne(line);
    KeyTextOfQuoted(spec.apiServerKey);
    assert AfterEquals(line) == Quoted(spec.apiServerKey);
    if AcceptedKey(spec.apiServerKey) {
      AcceptedKeyFitsLine(spec.apiServerKey);
      assert IsKeyLine(line);
    }
  }
}
