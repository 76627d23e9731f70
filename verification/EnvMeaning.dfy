/**
 What the line parser, the refusals and the size of the environment merge mean, said without the functions that
 compute them; and what every variable the service owns is set to in a merged file.
 */
module EnvMeaning {
  import opened EnvFile
  import opened Options
  import opened Ordering
  import opened Text

  // ------------------------------------------------------------------------------------------------- assignments

  predicate IsLetter(c: char) { 'A' <= c <= 'Z' || 'a' <= c <= 'z' }

  predicate IsDigit(c: char) { '0' <= c <= '9' }

  /** A letter or an underscore, then letters, digits and underscores. */
  predicate IsName(s: string) {
    && s != "" && (IsLetter(s[0]) || s[0] == '_')
    && forall i :: 0 <= i < |s| ==> IsLetter(s[i]) || IsDigit(s[i]) || s[i] == '_'
  }

  /** Nothing, or the word `export` and at least one blank. */
  predicate IsExportPart(s: string) {
    s == "" || (|s| > 6 && s[..6] == "export" && AllBlank(s[6..]))
  }

  /** The line assigns something to this key: `export` may stand before it, and blanks around it. */
  ghost predicate Assigns(line: string, key: string) {
    exists before, prefix, after, value ::
      && AllBlank(before) && IsExportPart(prefix) && IsName(key) && AllBlank(after)
      && line == before + prefix + key + after + "=" + value
  }

  lemma NamesAreIdentifiers(s: string)
    ensures IsName(s) <==> IsIdentifier(s)
  {
    if IsName(s) {
      forall c | c in s ensures IsWord(c) {
        var i :| 0 <= i < |s| && s[i] == c;
      }
    }
    if IsIdentifier(s) {
      forall i | 0 <= i < |s| ensures IsLetter(s[i]) || IsDigit(s[i]) || s[i] == '_' {
        assert s[i] in s;
      }
    }
  }

  lemma {:induction false} WordIsLongest(s: string)
    ensures forall c :: c in Word(s) ==> IsWord(c)
    ensures var w := Word(s); |w| < |s| ==> !IsWord(s[|w|])
  {
    if s != [] && IsWord(s[0]) { WordIsLongest(s[1..]); }
  }

  lemma {:induction false} WordThen(w: string, rest: string)
    requires (forall c :: c in w ==> IsWord(c)) && (rest != [] ==> !IsWord(rest[0]))
    ensures Word(w + rest) == w
  {
    if w == [] {
      assert w + rest == rest;
    } else {
      assert (w + rest)[1..] == w[1..] + rest && (w + rest)[0] == w[0];
      WordThen(w[1..], rest);
      assert w == [w[0]] + w[1..];
    }
  }

  ghost predicate KeyThenEquals(s: string, key: string) {
    exists after, value :: AllBlank(after) && IsName(key) && s == key + after + "=" + value
  }

  lemma FoundIsThere(s: string, key: string)
    requires KeyAt(s) == Some(key)
    ensures KeyThenEquals(s, key)
  {
    WordIsLongest(s);
    NamesAreIdentifiers(key);
    var after := SkipsBlanksOnly(s[|key|..]);
    var rest := SkipBlanks(s[|key|..]);
    assert s == key + s[|key|..] && rest == "=" + rest[1..];
    assert s == key + after + "=" + rest[1..];
  }

  lemma ThereIsFound(s: string, key: string)
    requires KeyThenEquals(s, key)
    ensures KeyAt(s) == Some(key)
  {
    var after, value :| AllBlank(after) && IsName(key) && s == key + after + "=" + value;
    NamesAreIdentifiers(key);
    var tail := after + ("=" + value);
    assert s == key + tail;
    assert tail[0] == if after == "" then '=' else after[0];
    WordThen(key, tail);
    SkipsAll(after, "=" + value);
    assert s[|key|..] == tail;
  }

  lemma KeyAtMeans(s: string, key: string)
    ensures KeyAt(s) == Some(key) <==> KeyThenEquals(s, key)
  {
    if KeyAt(s) == Some(key) { FoundIsThere(s, key); }
    if KeyThenEquals(s, key) { ThereIsFound(s, key); }
  }

  lemma AfterBlanks(before: string, s: string)
    requires AllBlank(before) && s != "" && !IsBlank(s[0])
    ensures SkipBlanks(before + s) == s
  {
    SkipsAll(before, s);
  }

  /** The parser finds a key exactly when the line assigns to it. */
  lemma ParseMeans(line: string, key: string)
    ensures ParseAssignment(line) == Some(key) <==> Assigns(line, key)
  {
    if ParseAssignment(line) == Some(key) { ParsedIsAssigned(line, key); }
    if Assigns(line, key) {
      var before, prefix, after, value :|
        && AllBlank(before) && IsExportPart(prefix) && IsName(key) && AllBlank(after)
        && line == before + prefix + key + after + "=" + value;
      PartsAreParsed(line, before, prefix, key, after, value);
    }
  }

  lemma PartsAreParsed(line: string, before: string, prefix: string, key: string, after: string, value: string)
    requires AllBlank(before) && IsExportPart(prefix) && IsName(key) && AllBlank(after)
    requires line == before + prefix + key + after + "=" + value
    ensures ParseAssignment(line) == Some(key)
  {
    var plain := key + after + "=" + value;
    assert KeyThenEquals(plain, key);
    assert line == before + (prefix + plain);
    AssignedIsParsed(before, prefix, plain, key);
  }

  lemma AssignedIsParsed(before: string, prefix: string, plain: string, key: string)
    requires AllBlank(before) && IsExportPart(prefix) && KeyThenEquals(plain, key)
    ensures ParseAssignment(before + (prefix + plain)) == Some(key)
  {
    KeyAtMeans(plain, key);
    if prefix == "" {
      assert prefix + plain == plain;
      PlainIsParsed(plain, key);
      AfterBlanks(before, plain);
    } else {
      ExportedIsParsed(prefix, plain, key);
      AfterBlanks(before, prefix + plain);
    }
  }

  lemma TogetherAssigns(line: string, before: string, s: string, prefix: string, rest: string, key: string)
    requires AllBlank(before) && IsExportPart(prefix) && KeyThenEquals(rest, key)
    requires line == before + s && s == prefix + rest
    ensures Assigns(line, key)
  {
    var after, value :| AllBlank(after) && IsName(key) && rest == key + after + "=" + value;
    assert line == before + prefix + key + after + "=" + value;
  }

  lemma ExportPart(s: string) returns (prefix: string)
    requires HasExport(s)
    ensures IsExportPart(prefix) && s == prefix + SkipBlanks(s[6..])
  {
    var blanks := SkipsBlanksOnly(s[6..]);
    prefix := "export" + blanks;
    assert s == "export" + s[6..];
    assert IsBlank(s[6..][0]);
    assert prefix[..6] == "export" && prefix[6..] == blanks;
  }

  lemma ParsedIsAssigned(line: string, key: string)
    requires ParseAssignment(line) == Some(key)
    ensures Assigns(line, key)
  {
    var before := SkipsBlanksOnly(line);
    var s := SkipBlanks(line);
    if HasExport(s) && KeyAt(SkipBlanks(s[6..])).Some? {
      var prefix := ExportPart(s);
      KeyAtMeans(SkipBlanks(s[6..]), key);
      TogetherAssigns(line, before, s, prefix, SkipBlanks(s[6..]), key);
    } else {
      KeyAtMeans(s, key);
      assert s == "" + s;
      TogetherAssigns(line, before, s, "", s, key);
    }
  }

  lemma NoNameBeforeEquals(s: string)
    requires s != "" && s[0] == '='
    ensures KeyAt(s) == None
  {
    assert Word(s) == "";
  }

  /** Without the prefix; the key may be the word `export` itself. */
  lemma PlainIsParsed(plain: string, key: string)
    requires KeyThenEquals(plain, key) && KeyAt(plain) == Some(key)
    ensures plain != "" && !IsBlank(plain[0])
    ensures (if HasExport(plain) then KeyAt(SkipBlanks(plain[6..])) else None).None?
  {
    var after, value :| AllBlank(after) && IsName(key) && plain == key + after + "=" + value;
    NamesAreIdentifiers(key);
    assert plain[0] == key[0];
    if HasExport(plain) {
      assert plain == key + (after + ("=" + value));
      ExportIsTheKey(plain, key, after + ("=" + value));
      SkipsAll(after, "=" + value);
      NoNameBeforeEquals("=" + value);
    }
  }

  lemma ExportIsTheKey(plain: string, key: string, tail: string)
    requires HasExport(plain) && KeyAt(plain) == Some(key) && plain == key + tail
    ensures plain[6..] == tail
  {
    WordIsLongest(plain);
    assert Word(plain) == key;
    assert plain == "export" + plain[6..];
    WordThen("export", plain[6..]);
  }

  lemma ExportedIsParsed(prefix: string, plain: string, key: string)
    requires prefix != "" && IsExportPart(prefix) && KeyThenEquals(plain, key) && KeyAt(plain) == Some(key)
    ensures var s := prefix + plain;
            s != "" && !IsBlank(s[0]) && HasExport(s) && KeyAt(SkipBlanks(s[6..])) == Some(key)
  {
    var s := prefix + plain;
    NamesAreIdentifiers(key);
    assert plain[0] == key[0];
    assert s[..6] == prefix[..6] && s[6..] == prefix[6..] + plain && s[6] == prefix[6..][0];
    assert s[0] == prefix[..6][0];
    SkipsAll(prefix[6..], plain);
  }

  // --------------------------------------------------------------------------------------------------- refusals

  /** The line begins with this key, possibly behind `export`, and the key ends there. */
  ghost predicate BeginsWith(line: string, key: string) {
    exists before, prefix, rest ::
      && AllBlank(before) && IsExportPart(prefix) && line == before + prefix + key + rest
      && (rest == "" || !(IsLetter(rest[0]) || IsDigit(rest[0]) || rest[0] == '_'))
  }

  lemma StartMeans(s: string, key: string)
    ensures StartsWithWord(s, key) <==> exists rest :: EndsThere(rest) && s == key + rest
  {
    if StartsWithWord(s, key) { assert s == key + s[|key|..] && EndsThere(s[|key|..]); }
    if rest :| EndsThere(rest) && s == key + rest { assert s[|key|..] == rest; }
  }

  predicate EndsThere(rest: string) { rest == "" || !(IsLetter(rest[0]) || IsDigit(rest[0]) || rest[0] == '_') }

  lemma BlankIsNoExport(prefix: string, s: string)
    requires prefix != "" && IsExportPart(prefix) && s != "" && !IsBlank(s[0])
    ensures var all := prefix + s; all[0] == 'e' && HasExport(all) && SkipBlanks(all[6..]) == s
  {
    var all := prefix + s;
    assert all[..6] == prefix[..6] && all[6..] == prefix[6..] + s && all[6] == prefix[6..][0];
    assert all[0] == prefix[..6][0];
    SkipsAll(prefix[6..], s);
  }

  lemma TogetherBegins(line: string, before: string, s: string, prefix: string, named: string, key: string)
    requires AllBlank(before) && IsExportPart(prefix) && StartsWithWord(named, key)
    requires line == before + s && s == prefix + named
    ensures BeginsWith(line, key)
  {
    StartMeans(named, key);
    var rest :| EndsThere(rest) && named == key + rest;
    assert line == before + prefix + key + rest;
  }

  lemma MentionedBegins(line: string, key: string)
    requires Mentions(line, key)
    ensures BeginsWith(line, key)
  {
    var before := SkipsBlanksOnly(line);
    var s := SkipBlanks(line);
    if StartsWithWord(s, key) {
      assert s == "" + s;
      TogetherBegins(line, before, s, "", s, key);
    } else {
      var prefix := ExportPart(s);
      TogetherBegins(line, before, s, prefix, SkipBlanks(s[6..]), key);
    }
  }

  lemma BegunIsMentioned(line: string, key: string)
    requires BeginsWith(line, key) && IsName(key)
    ensures Mentions(line, key)
  {
    var before, prefix, rest :|
      && AllBlank(before) && IsExportPart(prefix) && line == before + prefix + key + rest
      && (rest == "" || !(IsLetter(rest[0]) || IsDigit(rest[0]) || rest[0] == '_'));
    BeginningIsMentioned(before, prefix, key, rest);
    assert line == before + (prefix + (key + rest));
  }

  lemma MentionsMeans(line: string, key: string)
    requires IsName(key)
    ensures Mentions(line, key) <==> BeginsWith(line, key)
  {
    if Mentions(line, key) { MentionedBegins(line, key); }
    if BeginsWith(line, key) { BegunIsMentioned(line, key); }
  }

  lemma BeginningIsMentioned(before: string, prefix: string, key: string, rest: string)
    requires AllBlank(before) && IsExportPart(prefix) && IsName(key) && EndsThere(rest)
    ensures Mentions(before + (prefix + (key + rest)), key)
  {
    var named := key + rest;
    StartMeans(named, key);
    assert named[0] == key[0];
    if prefix == "" {
      assert prefix + named == named;
      AfterBlanks(before, named);
    } else {
      BlankIsNoExport(prefix, named);
      AfterBlanks(before, prefix + named);
    }
  }

  /** A backslash, and nothing but blanks behind it. */
  ghost predicate GoesOn(line: string) {
    exists body, blanks :: AllBlank(blanks) && line == body + "\\" + blanks
  }

  lemma GoesOnMeans(line: string)
    ensures EndsWith(DropTrailingBlanks(line), "\\") <==> GoesOn(line)
  {
    if EndsWith(DropTrailingBlanks(line), "\\") {
      var blanks := DropsBlanksOnly(line);
      var kept := DropTrailingBlanks(line);
      assert kept == kept[..|kept| - 1] + "\\";
      assert line == kept[..|kept| - 1] + "\\" + blanks;
    }
    if GoesOn(line) {
      var body, blanks :| AllBlank(blanks) && line == body + "\\" + blanks;
      DropsAll(body + "\\", blanks);
    }
  }

  lemma ManagedKeysAreNames()
    ensures forall key :: key in MANAGED_KEYS ==> IsName(key)
  {
    CredentialKeysAreIdentifiers(OpenRouter(""));
    CredentialKeysAreIdentifiers(OpenAi(""));
    CredentialKeysAreIdentifiers(Anthropic(""));
    ServerKeyIsOwned(NativeEnv(""));
    ServerNames();
    GatewayNames();
    TelegramNames();
    forall key | key in MANAGED_KEYS ensures IsName(key) { NamesAreIdentifiers(key); }
  }

  /** A line that the merge refuses goes on in the next one, or begins like a managed assignment without being one. */
  lemma AcceptableMeans(line: string)
    ensures Acceptable(line)
       <==> (&& !GoesOn(line)
             && ((exists key :: Assigns(line, key)) || forall key :: key in MANAGED_KEYS ==> !BeginsWith(line, key)))
  {
    GoesOnMeans(line);
    ManagedKeysAreNames();
    forall i | 0 <= i < |MANAGED_KEYS| ensures Mentions(line, MANAGED_KEYS[i]) <==> BeginsWith(line, MANAGED_KEYS[i]) {
      MentionsMeans(line, MANAGED_KEYS[i]);
    }
    forall key ensures Assigns(line, key) <==> ParseAssignment(line) == Some(key) { ParseMeans(line, key); }
    if ParseAssignment(line).Some? { assert Assigns(line, ParseAssignment(line).value); }
  }
}
