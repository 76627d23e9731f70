/** What every variable that the service owns is set to in a merged file, and exactly which merges succeed. */
module EnvVariables {
  import opened EnvFile
  import opened EnvMeaning
  import opened Options
  import opened Ordering
  import opened Text

  /** The lines that assign to this key, in order. */
  function AssignmentsOf(lines: seq<string>, key: string): seq<string> {
    Filter(lines, (line: string) => ParseAssignment(line) == Some(key))
  }

  lemma AssignmentsAre(lines: seq<string>, key: string)
    ensures forall line :: line in AssignmentsOf(lines, key) <==> line in lines && Assigns(line, key)
  {
    FilterMembers(lines, (line: string) => ParseAssignment(line) == Some(key));
    forall line ensures ParseAssignment(line) == Some(key) <==> Assigns(line, key) { ParseMeans(line, key); }
  }

  lemma {:induction false} NoAssignments(lines: seq<string>, key: string)
    requires forall i :: 0 <= i < |lines| ==> ParseAssignment(lines[i]) != Some(key)
    ensures AssignmentsOf(lines, key) == []
  {
    if lines != [] {
      assert forall i :: 0 <= i < |lines[1..]| ==> lines[1..][i] == lines[i + 1];
      NoAssignments(lines[1..], key);
    }
  }

  lemma AssignmentsConcat(a: seq<string>, b: seq<string>, key: string)
    ensures AssignmentsOf(a + b, key) == AssignmentsOf(a, key) + AssignmentsOf(b, key)
  {
    FilterConcat(a, b, (line: string) => ParseAssignment(line) == Some(key));
  }

  lemma PreservedAssignNone(existing: string, spec: EnvSpec, key: string)
    requires key in Owned(spec)
    ensures AssignmentsOf(StripAll(Preserved(existing, spec)), key) == []
  {
    var preserved := Preserved(existing, spec);
    PreservedLines(existing, spec);
    StripAllAt(preserved);
    forall i | 0 <= i < |preserved| ensures ParseAssignment(StripAll(preserved)[i]) != Some(key) {
      assert preserved[i] in preserved;
      ReturnIsInvisible(preserved[i], Owned(spec));
    }
    NoAssignments(StripAll(preserved), key);
  }

  /** Of an owned key only the rendered block assigns anything, whatever the file held before. */
  lemma OwnedAreRendered(existing: string, spec: EnvSpec, key: string)
    requires Merge(existing, spec).Ok? && key in Owned(spec)
    ensures AssignmentsOf(FileLines(Merge(existing, spec).value), key)
         == AssignmentsOf(LinesOf(RenderedPairs(spec)), key)
  {
    MergedFileLines(existing, spec);
    PreservedAssignNone(existing, spec, key);
    OnlyTheBlock(StripAll(Preserved(existing, spec)), LinesOf(RenderedPairs(spec)), key);
  }

  lemma OnlyTheBlock(first: seq<string>, block: seq<string>, key: string)
    requires AssignmentsOf(first, key) == []
    ensures AssignmentsOf(first + block + [""], key) == AssignmentsOf(block, key)
  {
    AssignmentsConcat(first + block, [""], key);
    AssignmentsConcat(first, block, key);
    assert ParseAssignment("") == None;
    NoAssignments([""], key);
  }

  // ------------------------------------------------------------------------------------------- the rendered block

  ghost predicate Proper(pairs: seq<Pair>) { forall i :: 0 <= i < |pairs| ==> IsIdentifier(pairs[i].key) }

  /** What the pairs set a key to, one after the other. */
  function TextsOf(pairs: seq<Pair>, key: string): seq<string> {
    if pairs == [] then []
    else if pairs[0].key == key then [pairs[0].text] + TextsOf(pairs[1..], key)
    else TextsOf(pairs[1..], key)
  }

  function Assigning(key: string, texts: seq<string>): seq<string> {
    seq(|texts|, i requires 0 <= i < |texts| => key + "=" + texts[i])
  }

  lemma {:induction false} PairsAssign(pairs: seq<Pair>, key: string)
    requires Proper(pairs)
    ensures AssignmentsOf(LinesOf(pairs), key) == Assigning(key, TextsOf(pairs, key))
  {
    if pairs != [] {
      assert Proper(pairs[1..]);
      PairsAssign(pairs[1..], key);
      PairAssigns(pairs[0], LinesOf(pairs[1..]), TextsOf(pairs[1..], key), key);
    }
  }

  lemma PairAssigns(p: Pair, lines: seq<string>, texts: seq<string>, key: string)
    requires IsIdentifier(p.key) && AssignmentsOf(lines, key) == Assigning(key, texts)
    ensures AssignmentsOf([LineOf(p)] + lines, key) == Assigning(key, if p.key == key then [p.text] + texts else texts)
  {
    OwnAssignment(p, key);
    AssignmentsConcat([LineOf(p)], lines, key);
    AssigningConcat(key, [p.text], texts);
  }

  lemma OwnAssignment(p: Pair, key: string)
    requires IsIdentifier(p.key)
    ensures AssignmentsOf([LineOf(p)], key) == if p.key == key then Assigning(key, [p.text]) else []
  {
    ParseOwn(p);
    OneAssignment(LineOf(p), key);
  }

  lemma AssigningConcat(key: string, a: seq<string>, b: seq<string>)
    ensures Assigning(key, a + b) == Assigning(key, a) + Assigning(key, b)
  {
  }

  lemma OneAssignment(line: string, key: string)
    ensures AssignmentsOf([line], key) == if ParseAssignment(line) == Some(key) then [line] else []
  {
    FilterOne(line, (line: string) => ParseAssignment(line) == Some(key));
  }

  ghost predicate DistinctKeys(pairs: seq<Pair>) {
    forall i, j :: 0 <= i < j < |pairs| ==> pairs[i].key != pairs[j].key
  }

  lemma {:induction false} AbsentKey(pairs: seq<Pair>, key: string)
    requires forall i :: 0 <= i < |pairs| ==> pairs[i].key != key
    ensures TextsOf(pairs, key) == []
  {
    if pairs != [] {
      assert forall i :: 0 <= i < |pairs[1..]| ==> pairs[1..][i] == pairs[i + 1];
      AbsentKey(pairs[1..], key);
    }
  }

  lemma {:induction false} DistinctKey(pairs: seq<Pair>, i: nat)
    requires i < |pairs| && DistinctKeys(pairs)
    ensures TextsOf(pairs, pairs[i].key) == [pairs[i].text]
  {
    var rest := pairs[1..];
    assert forall j :: 0 <= j < |rest| ==> rest[j] == pairs[j + 1];
    if i == 0 {
      AbsentKey(rest, pairs[0].key);
    } else {
      DistinctKey(rest, i - 1);
    }
  }

  // ----------------------------------------------------------------------------------------- what the service sets

  /** The variables of a spec and their texts: the secrets quoted, the rest fixed. */
  function Settings(spec: EnvSpec): seq<Pair> {
    match spec
    case ManagedEnv(credential, botToken, allowedUsers, apiServerKey) => [
      match credential
      case OpenRouter(key) => Pair("OPENROUTER_API_KEY", Quoted(key))
      case Anthropic(key) => Pair("ANTHROPIC_API_KEY", Quoted(key))
      case OpenAi(key) => Pair("OPENAI_API_KEY", Quoted(key)),
      Pair("TELEGRAM_BOT_TOKEN", Quoted(botToken)),
      Pair("TELEGRAM_ALLOWED_USERS", Quoted(allowedUsers)),
      Pair("API_SERVER_KEY", Quoted(apiServerKey)),
      Pair("API_SERVER_ENABLED", "true"),
      Pair("API_SERVER_HOST", "0.0.0.0"),
      Pair("API_SERVER_PORT", "8642"),
      Pair("GATEWAY_ALLOW_ALL_USERS", "false"),
      Pair("TELEGRAM_ALLOW_ALL_USERS", "false")]
    case NativeEnv(apiServerKey) => [
      Pair("API_SERVER_ENABLED", "true"),
      Pair("API_SERVER_HOST", "0.0.0.0"),
      Pair("API_SERVER_KEY", Quoted(apiServerKey))]
  }

  lemma SettingsAreRendered(spec: EnvSpec)
    ensures RenderedPairs(spec) == Settings(spec)
  {
  }

  lemma SettingsDiffer(spec: EnvSpec)
    ensures DistinctKeys(Settings(spec))
  {
    var pairs := Settings(spec);
    if spec.NativeEnv? {
      assert |pairs[0].key| == 18 && |pairs[1].key| == 15 && |pairs[2].key| == 14;
    } else {
      assert |pairs[1].key| == 18 && |pairs[2].key| == 22 && |pairs[3].key| == 14 && |pairs[4].key| == 18;
      assert |pairs[5].key| == 15 && |pairs[6].key| == 15 && |pairs[7].key| == 23 && |pairs[8].key| == 24;
      assert pairs[0].key[0] == 'O' || pairs[0].key[1] == 'N';
      assert pairs[1].key[0] == 'T' && pairs[3].key[1] == 'P' && pairs[4].key[1] == 'P' && pairs[4].key[0] == 'A';
      assert pairs[3].key[0] == 'A' && pairs[5].key[11] == 'H' && pairs[6].key[11] == 'P';
    }
  }

  /**
   A merged file sets every variable of the spec exactly once, to what the spec says, and no other variable that the
   service owns: whatever the file held before, an old credential of another provider too.
   */
  lemma EveryVariableOnce(existing: string, spec: EnvSpec, key: string)
    requires Merge(existing, spec).Ok? && key in Owned(spec)
    ensures var lines := AssignmentsOf(FileLines(Merge(existing, spec).value), key);
            && (forall i :: 0 <= i < |Settings(spec)| && Settings(spec)[i].key == key ==>
                  lines == [key + "=" + Settings(spec)[i].text])
            && ((forall i :: 0 <= i < |Settings(spec)| ==> Settings(spec)[i].key != key) ==> lines == [])
  {
    OwnedAreRendered(existing, spec, key);
    SettingsAreRendered(spec);
    SettingsDiffer(spec);
    RenderedIsGood(spec);
    BlockSetsOnce(Settings(spec), key);
  }

  lemma BlockSetsOnce(pairs: seq<Pair>, key: string)
    requires DistinctKeys(pairs) && Proper(pairs)
    ensures forall i :: 0 <= i < |pairs| && pairs[i].key == key ==>
              AssignmentsOf(LinesOf(pairs), key) == [key + "=" + pairs[i].text]
    ensures (forall i :: 0 <= i < |pairs| ==> pairs[i].key != key) ==> AssignmentsOf(LinesOf(pairs), key) == []
  {
    PairsAssign(pairs, key);
    if i :| 0 <= i < |pairs| && pairs[i].key == key {
      DistinctKey(pairs, i);
      assert Assigning(key, [pairs[i].text]) == [key + "=" + pairs[i].text];
      assert forall j :: 0 <= j < |pairs| && pairs[j].key == key ==> j == i;
    } else {
      AbsentKey(pairs, key);
    }
  }

  // --------------------------------------------------------------------------------------------- which merges succeed

  /** Nothing below a blank, and no delete character. */
  predicate NoControlCharacter(s: string) { forall i :: 0 <= i < |s| ==> s[i] >= ' ' && s[i] != '\U{7F}' }

  lemma ControlMeans(s: string)
    ensures NoControl(s) <==> NoControlCharacter(s)
  {
    if NoControl(s) {
      forall i | 0 <= i < |s| ensures s[i] >= ' ' && s[i] != '\U{7F}' { assert s[i] in s; }
    }
  }

  /** The merge refuses the line. */
  ghost predicate Refused(line: string) {
    || GoesOn(line)
    || ((forall key :: !Assigns(line, key)) && exists key :: key in MANAGED_KEYS && BeginsWith(line, key))
  }

  /**
   A merge succeeds exactly when the file is within 256 KiB and has no NUL, none of its lines is refused, and no secret
   has a control character; which of these fails first decides the error.
   */
  lemma MergeSucceedsExactly(existing: string, spec: EnvSpec)
    ensures var fits := Utf8Size(existing) <= 262144 && forall c :: c in existing ==> c != '\0';
            var readable := forall line :: line in FileLines(existing) ==> !Refused(line);
            var plain := NoControlCharacter(spec.apiServerKey)
                         && (spec.ManagedEnv? ==>
                               && NoControlCharacter(spec.credential.key)
                               && NoControlCharacter(spec.botToken) && NoControlCharacter(spec.allowedUsers));
            && (Merge(existing, spec).Ok? <==> fits && readable && plain)
            && (Merge(existing, spec) == Err(InvalidFile) <==> !fits)
            && (Merge(existing, spec) == Err(UnsupportedLine) <==> fits && !readable)
            && (Merge(existing, spec) == Err(ControlCharacter) <==> fits && readable && !plain)
  {
    LinesReadable(FileLines(existing));
    ControlMeans(spec.apiServerKey);
    if spec.ManagedEnv? {
      ControlMeans(spec.credential.key);
      ControlMeans(spec.botToken);
      ControlMeans(spec.allowedUsers);
    }
  }

  lemma LinesReadable(lines: seq<string>)
    ensures AllAcceptable(lines) <==> forall line :: line in lines ==> !Refused(line)
  {
    forall line ensures Acceptable(line) <==> !Refused(line) { AcceptableMeans(line); }
    if forall line :: line in lines ==> !Refused(line) {
      forall i | 0 <= i < |lines| ensures Acceptable(lines[i]) { assert lines[i] in lines; }
    }
  }

  // ------------------------------------------------------------------------------------------------- the encoding

  /** The bytes of a character in UTF-8 (section 3 of RFC 3629). */
  function Encoded(c: char): seq<int> {
    var n := c as int;
    if n < 0x80 then [n]
    else if n < 0x800 then [0xC0 + n / 0x40, 0x80 + n % 0x40]
    else if n < 0x10000 then [0xE0 + n / 0x1000, 0x80 + n / 0x40 % 0x40, 0x80 + n % 0x40]
    else [0xF0 + n / 0x40000, 0x80 + n / 0x1000 % 0x40, 0x80 + n / 0x40 % 0x40, 0x80 + n % 0x40]
  }

  function EncodedText(s: string): seq<int> {
    if s == "" then [] else EncodedText(s[..|s| - 1]) + Encoded(s[|s| - 1])
  }

  /** The size limits are about the number of these bytes. */
  lemma {:induction false} SizeIsEncoded(s: string)
    ensures |EncodedText(s)| == Utf8Size(s)
  {
    if s != "" {
      SizeIsEncoded(s[..|s| - 1]);
      assert |Encoded(s[|s| - 1])| == CharBytes(s[|s| - 1]);
    }
  }

  // ------------------------------------------------------------------------------------------------- the reader

  function Digit(n: nat, upper: bool): char
    requires n < 16
  {
    if n < 10 then '0' + n as char else if upper then 'A' + (n - 10) as char else 'a' + (n - 10) as char
  }

  /** A character written as `\u` and four hexadecimal digits, in either case. */
  function CodeOf(c: char, upper: bool): string
    requires c as int < 0x10000
  {
    var n := c as int;
    ['\\', 'u', Digit(n / 0x1000, upper), Digit(n / 0x100 % 16, upper), Digit(n / 16 % 16, upper), Digit(n % 16, upper)]
  }

  lemma DigitIsRead(n: nat, upper: bool)
    requires n < 16
    ensures HexDigit(Digit(n, upper)) == Some(n)
  {
  }

  lemma FourDigits(n: nat)
    requires n < 0x10000
    ensures n / 0x1000 < 16 && ((n / 0x1000 * 16 + n / 0x100 % 16) * 16 + n / 16 % 16) * 16 + n % 16 == n
  {
    assert n / 0x100 == n / 0x1000 * 16 + n / 0x100 % 16;
    assert n / 16 == n / 0x100 * 16 + n / 16 % 16;
  }

  lemma DigitsAreRead(a: nat, b: nat, c: nat, d: nat, upper: bool)
    requires a < 16 && b < 16 && c < 16 && d < 16
    ensures HexCode([Digit(a, upper), Digit(b, upper), Digit(c, upper), Digit(d, upper)])
         == Some(((a * 16 + b) * 16 + c) * 16 + d)
  {
    DigitIsRead(a, upper);
    DigitIsRead(b, upper);
    DigitIsRead(c, upper);
    DigitIsRead(d, upper);
  }

  lemma EscapeIsRead(digits: string, n: nat, rest: string)
    requires |digits| == 4 && HexCode(digits) == Some(n) && (n < 0xD800 || 0xE000 <= n < 0x10000)
    ensures JsonText("\\u" + digits + rest) == Prepend(n as char, JsonText(rest))
  {
    var s := "\\u" + digits + rest;
    assert s[0] == '\\' && s[1] == 'u' && s[2..6] == digits && s[6..] == rest;
  }

  /** The JSON reader takes such an escape back to its character. */
  lemma CodeIsRead(c: char, upper: bool, rest: string)
    requires c as int < 0xD800 || 0xE000 <= c as int < 0x10000
    ensures JsonText(CodeOf(c, upper) + rest) == Prepend(c, JsonText(rest))
  {
    var n := c as int;
    FourDigits(n);
    DigitsAreRead(n / 0x1000, n / 0x100 % 16, n / 16 % 16, n % 16, upper);
    var digits := CodeOf(c, upper)[2..];
    EscapeIsRead(digits, n, rest);
    assert CodeOf(c, upper) == "\\u" + digits;
  }

  lemma AcceptedKeyMeans(key: string)
    ensures AcceptedKey(key)
       <==> (&& 44 <= |key| <= 259 && key[..12] == "bruno_agent_"
             && forall i :: 12 <= i < |key| ==> IsLetter(key[i]) || IsDigit(key[i]) || key[i] == '_' || key[i] == '-')
  {
    if |key| >= 12 {
      var tail := key[12..];
      assert forall i :: 12 <= i < |key| ==> key[i] == tail[i - 12];
      assert (forall c :: c in tail ==> c == '-' || IsWord(c))
        <==> forall i :: 0 <= i < |tail| ==> tail[i] == '-' || IsWord(tail[i]);
    }
  }

  /** The reader of the API server key finds the spec's own one exactly when it is a key of the service's making. */
  lemma KeyIsFoundExactly(existing: string, spec: EnvSpec)
    requires Merge(existing, spec).Ok?
    ensures var file, key := Merge(existing, spec).value, spec.apiServerKey;
            ReadKey(file) == if && |EncodedText(file)| <= 65536
                                && 44 <= |key| <= 259 && key[..12] == "bruno_agent_"
                                && forall i :: 12 <= i < |key| ==>
                                     IsLetter(key[i]) || IsDigit(key[i]) || key[i] == '_' || key[i] == '-'
                             then Some(key) else None
  {
    ReaderFindsKey(existing, spec);
    SizeIsEncoded(Merge(existing, spec).value);
    AcceptedKeyMeans(spec.apiServerKey);
  }
}
